/** One profile frame piece (`ProfileFrameObject.py`): the feature object `obj` with its
    properties, the Python proxy `ProfileFrameObject` with its bookkeeping, and the
    methods that rebuild the piece in the document: a main pad along the edge, an
    optional chamfer at each end (an extension pad cut by a pocket with a triangular
    cutting sketch), and the placement of the whole piece on the edge.

    The feature is also a group (`App::GroupExtensionPython`): the features it builds
    are members of its record in the document, `doc.objects[obj.name].group`. */
module ProfileFrame {
  import opened Wrappers
  import opened Text
  import opened Doc
  import opened Utils
  import opened FrameGeometry

  /** `chamfer_sketch_cache[right]`: Python indexes the two-slot list with the boolean. */
  function Slot(right: bool): nat {
    if right then 1 else 0
  }

  /** `f'{value}'` of an optional string: Python prints `None` for no value. */
  function LabelText(o: Option<string>): string {
    if o.None? then "None" else o.value
  }

  /** The frame is a record of the document and not a member of its own group. */
  predicate FrameHeld(objects: map<string, DocObject>, frame: string) {
    frame in objects && frame !in objects[frame].group
  }

  /** No update changes the shape of an object that stays in the document. */
  predicate SameBoxes(before: map<string, DocObject>, after: map<string, DocObject>) {
    forall k :: k in before && k in after ==> after[k].bbox == before[k].bbox
  }

  /** Between `before` and `after` no record disappears or changes shape, the records
      outside `changed` are untouched, and the body's record changes only in its
      group. */
  predicate Untouched(before: map<string, DocObject>, after: map<string, DocObject>, body: string, changed: set<string>) {
    && before.Keys <= after.Keys
    && SameBoxes(before, after)
    && (forall k :: k in before && k !in changed && k != body ==> after[k] == before[k])
    && (body in before ==> after[body] == before[body].(group := after[body].group))
  }

  /** The body holds what it held, and the names in `added`, and nothing else. */
  ghost predicate Members(before: map<string, DocObject>, after: map<string, DocObject>, body: string, added: set<string>) {
    forall n :: Holds(after, Some(body), n) <==> Holds(before, Some(body), n) || n in added
  }

  lemma UntouchedTrans(a: map<string, DocObject>, b: map<string, DocObject>, c: map<string, DocObject>, body: string, s: set<string>, t: set<string>)
    requires Untouched(a, b, body, s) && Untouched(b, c, body, t)
    ensures Untouched(a, c, body, s + t)
  {
  }

  lemma MembersTrans(a: map<string, DocObject>, b: map<string, DocObject>, c: map<string, DocObject>, body: string, s: set<string>, t: set<string>)
    requires Members(a, b, body, s) && Members(b, c, body, t)
    ensures Members(a, c, body, s + t)
  {
  }

  /** Fetching or creating a member of the body changes nothing but the body's group,
      which gains at most that member. */
  lemma ObtainKeeps(objects: map<string, DocObject>, body: string, name: string, typeId: string, changed: set<string>)
    requires FrameHeld(objects, body)
    ensures var (n, r) := Obtain(objects, Some(body), name, typeId);
      && Untouched(objects, r, body, changed) && Members(objects, r, body, {n})
      && FrameHeld(r, body) && n != body
  {
    var (n, r) := Obtain(objects, Some(body), name, typeId);
    if !Holds(objects, Some(body), name) {
      assert r[body].group == objects[body].group + [n];
    }
  }

  /** Rewriting one member of the body, without changing its shape, changes nothing
      else. */
  lemma SetOne(objects: map<string, DocObject>, body: string, k: string, o: DocObject)
    requires FrameHeld(objects, body) && Holds(objects, Some(body), k) && o.bbox == objects[k].bbox
    ensures Untouched(objects, objects[k := o], body, {k}) && Members(objects, objects[k := o], body, {})
    ensures FrameHeld(objects[k := o], body) && Holds(objects[k := o], Some(body), k)
  {
    forall n ensures Holds(objects[k := o], Some(body), n) <==> Holds(objects, Some(body), n) {
    }
  }

  /** Rewriting members of the body named in `changed`, without adding or removing
      records or changing shapes, changes nothing else and adds no member. */
  lemma RewriteOnly(before: map<string, DocObject>, after: map<string, DocObject>, body: string, changed: set<string>)
    requires FrameHeld(before, body) && body !in changed && after.Keys == before.Keys
    requires forall k :: k in before && k !in changed ==> after[k] == before[k]
    requires forall k :: k in changed && k in before ==> after[k].bbox == before[k].bbox
    ensures Untouched(before, after, body, changed) && Members(before, after, body, {}) && FrameHeld(after, body)
  {
    forall n ensures Holds(after, Some(body), n) <==> Holds(before, Some(body), n) {
    }
  }

  /** A member of the body outside `changed` keeps its record. */
  lemma UntouchedAt(before: map<string, DocObject>, after: map<string, DocObject>, body: string, changed: set<string>, k: string)
    requires Untouched(before, after, body, changed) && FrameHeld(before, body) && Holds(before, Some(body), k) && k !in changed
    ensures k in after && after[k] == before[k]
  {
  }

  /** The object fetching `n` from the body yields: the member itself when the body
      holds it, otherwise a new object `c` under a name the document did not use. */
  predicate FetchedAs(objects: map<string, DocObject>, body: string, n: string, c: string) {
    && (Holds(objects, Some(body), n) ==> c == n)
    && (!Holds(objects, Some(body), n) ==> c !in objects)
  }

  /** The record that object starts from: the member's own, or a blank `typeId`. */
  function Found(objects: map<string, DocObject>, body: string, n: string, c: string, typeId: string): DocObject {
    if Holds(objects, Some(body), n) then objects[n] else Blank(c, typeId)
  }

  /** `GetOrCreate` on a member of the body yields what `FetchedAs` and `Found` say. */
  lemma ObtainFound(objects: map<string, DocObject>, body: string, n: string, typeId: string)
    requires body in objects
    ensures var (c, created) := Obtain(objects, Some(body), n, typeId);
      FetchedAs(objects, body, n, c) && c in created && created[c] == Found(objects, body, n, c, typeId)
  {
  }

  /** Fetching `n` after a step that neither added nor rewrote it finds what fetching
      it before would have found. */
  lemma FoundBefore(before: map<string, DocObject>, after: map<string, DocObject>, body: string, changed: set<string>,
                    added: set<string>, n: string, c: string, typeId: string)
    requires FrameHeld(before, body) && Untouched(before, after, body, changed) && Members(before, after, body, added) && n !in added
    requires FetchedAs(after, body, n, c)
    ensures FetchedAs(before, body, n, c)
    ensures n !in changed ==> Found(after, body, n, c, typeId) == Found(before, body, n, c, typeId)
  {
    assert Holds(after, Some(body), n) <==> Holds(before, Some(body), n);
  }

  /** Apart from the names in `spared`, every record that is neither the frame nor one
      of its members stays as it was and does not join the frame; the frame's own
      record, while it exists, changes only in its group. */
  ghost predicate Confined(before: map<string, DocObject>, after: map<string, DocObject>, frame: string, spared: set<string>) {
    && (frame in after ==> frame in before && after[frame] == before[frame].(group := after[frame].group))
    && (forall k :: k in before && k != frame && k !in spared && !Holds(before, Some(frame), k) ==>
          k in after && after[k] == before[k] && !Holds(after, Some(frame), k))
  }

  lemma ConfinedTrans(a: map<string, DocObject>, b: map<string, DocObject>, c: map<string, DocObject>, frame: string, s: set<string>, t: set<string>)
    requires Confined(a, b, frame, s) && Confined(b, c, frame, t)
    ensures Confined(a, c, frame, s + t)
  {
  }

  /** A step that rewrites members of the body and adds only records that are new or
      already members confines its changes to the body. */
  lemma UntouchedConfined(before: map<string, DocObject>, after: map<string, DocObject>, body: string, changed: set<string>, added: set<string>)
    requires FrameHeld(before, body) && Untouched(before, after, body, changed) && Members(before, after, body, added)
    requires forall n :: n in changed + added ==> n !in before || Holds(before, Some(body), n)
    ensures Confined(before, after, body, {})
  {
    forall k | k in before && k != body && !Holds(before, Some(body), k)
      ensures k in after && after[k] == before[k] && !Holds(after, Some(body), k)
    {
      assert k !in changed + added;
    }
  }

  /** Removing members of the frame confines the change to the frame. */
  lemma RemoveConfined(objects: map<string, DocObject>, frame: string, removed: set<string>)
    requires FrameHeld(objects, frame) && forall n :: n in removed ==> Holds(objects, Some(frame), n)
    ensures Confined(objects, objects - removed, frame, {})
  {
    assert frame !in removed;
  }

  /** Removing any one record spares only that record. */
  lemma RemoveOneConfined(objects: map<string, DocObject>, frame: string, n: string)
    ensures Confined(objects, objects - {n}, frame, {n})
  {
  }

  lemma ConfinedRefl(objects: map<string, DocObject>, frame: string, spared: set<string>)
    ensures Confined(objects, objects, frame, spared)
  {
  }

  /** `AttachmentOffset` of a cutting sketch: `offset` along the base feature's normal,
      turned by the direction. */
  function ChamferPlacement(offset: real, direction: int): Placement {
    Placement(0.0, 0.0, offset, YawPitchRoll(0.0, 90.0, direction as real * 90.0))
  }

  /** The cutting sketch sits on the base feature's XY plane at `offset`, turned by the
      direction, and is hidden. */
  predicate AttachedAt(c: DocObject, baseFeature: string, direction: int, offset: real) {
    c.support == Some(baseFeature) && c.objectXY && c.offset == ChamferPlacement(offset, direction) && !c.visible
  }

  /** The cutting sketch `c` once `create_chamfer` has redrawn it for `key`: cleared
      first when a key was recorded, then attached, hidden, recomputed twice and given
      the triangle. */
  function Redrawn(c: DocObject, recorded: Option<ChamferKey>, key: ChamferKey, offset: real, right: bool): DocObject {
    var cleared := if recorded.Some? then c.(geometry := [], constraints := 0) else c;
    cleared.(support := Some(key.baseFeature), objectXY := true, offset := ChamferPlacement(offset, key.direction),
             visible := false, recomputes := cleared.recomputes + 2,
             geometry := cleared.geometry + ChamferSegments(key.extendedLength, key.width, right))
  }

  /** A redrawn cutting sketch is attached as the key says and carries the geometry the
      memo step describes. */
  lemma RedrawnAttached(c: DocObject, recorded: Option<ChamferKey>, key: ChamferKey, offset: real, right: bool)
    requires recorded != Some(key)
    ensures AttachedAt(Redrawn(c, recorded, key, offset, right), key.baseFeature, key.direction, offset)
    ensures ChamferStep(EndState(recorded, Some(c.geometry)), key, right).cutting == Some(Redrawn(c, recorded, key, offset, right).geometry)
  {
  }

  /** The pad record `pad` leaves: the inputs set to `target`, recomputed once when they
      differed, and hidden. */
  function PadAfter(q: DocObject, target: FeatureInputs): DocObject {
    q.(inputs := target, recomputes := q.recomputes + (if q.inputs != target then 1 else 0), visible := false)
  }

  /** The pocket record `create_chamfer` leaves: set to cut `cutting` through all, both
      ways, out of `extension`, with one recompute, only when either differed; hidden. */
  function PocketAfter(q: DocObject, extension: string, cutting: string): DocObject {
    (if q.inputs.baseFeature != Some(extension) || q.inputs.profile != Some(cutting) then
       q.(inputs := q.inputs.(baseFeature := Some(extension), profile := Some(cutting)),
          throughAllMidplane := true, recomputes := q.recomputes + 1)
     else q).(visible := false)
  }

  /** The pocket cuts the cutting sketch out of the extension, and is left untouched
      but for its visibility exactly when it already did. */
  lemma PocketAfterCuts(q: DocObject, extension: string, cutting: string)
    ensures var r := PocketAfter(q, extension, cutting);
      && r.inputs.baseFeature == Some(extension) && r.inputs.profile == Some(cutting) && !r.visible
      && (r == q.(visible := false) <==> q.inputs.baseFeature == Some(extension) && q.inputs.profile == Some(cutting))
      && (r != q.(visible := false) ==> r.throughAllMidplane && r.recomputes == q.recomputes + 1)
  {
  }

  /** The attachment offset and recompute count `apply_offset_and_rotation` leaves,
      from the values last applied `(x, y, angle, z)` and the feature's before. */
  function AppliedPlacement(last: (real, real, real, real), x: real, y: real, angle: real, z: real,
                            current: Placement, recomputes: nat): (Placement, nat) {
    if last == (x, y, angle, z) then (current, recomputes) else (Placement(x, y, z, AboutZ(angle)), recomputes + 1)
  }

  /** The cutting sketch of the end called `name`, as `getObject` on the frame finds it. */
  function CuttingView(objects: map<string, DocObject>, frame: string, name: string): Option<seq<Segment>> {
    var n := CuttingSketchName(name);
    if Holds(objects, Some(frame), n) then Some(objects[n].geometry) else None
  }

  /** The extension pad leaves the end's cutting sketch as it was: the pad is not the
      sketch, and the profile sketch it hides keeps its geometry. */
  lemma PadKeepsCuttingView(start: map<string, DocObject>, padded: map<string, DocObject>, body: string, name: string,
                            ext: string, sketch: string)
    requires Untouched(start, padded, body, {ext, sketch}) && Members(start, padded, body, {ext}) && FrameHeld(start, body)
    requires StartsWith(ext, "frame_")
    requires sketch in start && sketch in padded && padded[sketch].geometry == start[sketch].geometry
    ensures CuttingView(padded, body, name) == CuttingView(start, body, name)
  {
    var n := CuttingSketchName(name);
    assert n[0] == 'c' && ext[0] == 'f';
    assert Holds(padded, Some(body), n) <==> Holds(start, Some(body), n);
  }

  /** The three objects `clean_chamfer` looks up on the frame for the end called
      `name`: its pocket, its cutting sketch and its extension pad. */
  function ChamferParts(name: string): (parts: seq<string>)
    ensures |parts| == 3
  {
    [PocketName(name), CuttingSketchName(name), "frame_" + ExtensionPadLabel(name)]
  }

  /** Those of the three the frame holds. */
  function HeldParts(objects: map<string, DocObject>, frame: string, name: string): set<string> {
    set n | n in ChamferParts(name) && Holds(objects, Some(frame), n)
  }

  /** The three names differ in their first character, so removing one never removes
      another; the extension pad is the one `pad` creates for `Chamfer_extend_<name>`
      when `name` has no `':'`. */
  lemma ChamferPartsNamesDistinct(name: string)
    ensures var parts := ChamferParts(name);
      parts[0] != parts[1] && parts[0] != parts[2] && parts[1] != parts[2]
    ensures ':' !in name ==> ChamferParts(name)[2] == PadName(ExtensionPadLabel(name))
  {
    var parts := ChamferParts(name);
    assert parts[0][0] == 'C' && parts[1][0] == 'c' && parts[2][0] == 'f';
    if ':' !in name {
      ReplaceAbsent(ExtensionPadLabel(name), ':', '_');
    }
  }

  /** `removeObject` on one of the parts when the frame holds it; otherwise nothing. */
  function RemoveIfHeld(objects: map<string, DocObject>, frame: string, n: string): map<string, DocObject> {
    if Holds(objects, Some(frame), n) then objects - {n} else objects
  }

  /** Removing the three parts one after the other removes exactly those the frame
      held at the start, and leaves none of them held; the third is held just before
      its removal exactly when it was held at the start. */
  lemma RemovePartsAll(objects: map<string, DocObject>, frame: string, name: string)
    requires FrameHeld(objects, frame)
    ensures var parts := ChamferParts(name);
      var second := RemoveIfHeld(RemoveIfHeld(objects, frame, parts[0]), frame, parts[1]);
      var r := RemoveIfHeld(second, frame, parts[2]);
      && (Holds(second, Some(frame), parts[2]) <==> Holds(objects, Some(frame), parts[2]))
      && r == objects - HeldParts(objects, frame, name)
      && FrameHeld(r, frame)
      && (forall n :: n in parts ==> !Holds(r, Some(frame), n))
      && Confined(objects, r, frame, {})
  {
    RemoveConfined(objects, frame, HeldParts(objects, frame, name));
    var parts := ChamferParts(name);
    ChamferPartsNamesDistinct(name);
    var first := RemoveIfHeld(objects, frame, parts[0]);
    var second := RemoveIfHeld(first, frame, parts[1]);
    var r := RemoveIfHeld(second, frame, parts[2]);
    assert first[frame] == objects[frame];
    assert second[frame] == objects[frame];
    assert r[frame] == objects[frame];
    assert Holds(first, Some(frame), parts[1]) <==> Holds(objects, Some(frame), parts[1]);
    assert Holds(second, Some(frame), parts[2]) <==> Holds(objects, Some(frame), parts[2]);
  }

  /** A recorded right-end sketch is reused when its label starts with the left
      sketch's label (Python prints `None` when none is recorded) followed by `_R`. */
  predicate Reuses(sketchR: Option<(string, string)>, sketchLabelL: Option<string>) {
    sketchR.Some? && StartsWith(sketchR.value.0, LabelText(sketchLabelL) + "_R")
  }

  /** The right-end sketch `getSketchR` makes: a copy of the local sketch under a
      unique name, added to the frame, attached to the local sketch, moved
      `padLength` back along its normal and labelled with `_R`. */
  function RightCopy(objects: map<string, DocObject>, frame: string, sketch: string, padLength: real): (r: (string, map<string, DocObject>))
    requires frame in objects && sketch in objects
  {
    var source := objects[sketch];
    var n := UniqueName(objects.Keys, sketch);
    var copy := source.(support := Some(sketch), objectXY := true,
                        offset := source.offset.(x := 0.0, y := 0.0, z := -padLength),
                        objectLabel := source.objectLabel + "_R",
                        recomputes := source.recomputes + 1);
    (n, AddTo(objects, Some(frame), n, copy))
  }

  /** The copy is a new member of the frame, sits on the local sketch at `-padLength`
      and leaves every other record, the local sketch's included, as it was. */
  lemma RightCopyKeepsLeft(objects: map<string, DocObject>, frame: string, sketch: string, padLength: real)
    requires FrameHeld(objects, frame) && Holds(objects, Some(frame), sketch)
    ensures var (n, after) := RightCopy(objects, frame, sketch, padLength);
      && n !in objects && n != sketch && Holds(after, Some(frame), n) && FrameHeld(after, frame)
      && after[n].support == Some(sketch) && after[n].offset.z == -padLength
      && after[n].bbox == objects[sketch].bbox
      && (forall k :: k in objects && k != frame ==> after[k] == objects[k])
  {
  }

  /** Once the local sketch carries the label recorded for it, the next `getSketchR`
      reuses the copy it just made instead of copying again. */
  lemma RightCopyIsReused(objects: map<string, DocObject>, frame: string, sketch: string, padLength: real, sketchLabelL: Option<string>)
    requires frame in objects && sketch in objects && objects[sketch].objectLabel == LabelText(sketchLabelL)
    ensures var (n, after) := RightCopy(objects, frame, sketch, padLength);
      Reuses(Some((after[n].objectLabel, n)), sketchLabelL)
  {
    var (n, after) := RightCopy(objects, frame, sketch, padLength);
    var p := LabelText(sketchLabelL) + "_R";
    assert after[n].objectLabel == p;
  }

  /** The name of the right-end sketch recorded in `sketchR`, if any: the one object
      `getSketchR` may remove. */
  function RecordedRight(sketchR: Option<(string, string)>): set<string> {
    if sketchR.Some? then {sketchR.value.1} else {}
  }

  /** `getSketchR` on values: the result, the objects afterwards and the new record
      of the right-end sketch. */
  function SketchRStep(objects: map<string, DocObject>, frame: string, sketch: string, sketchR: Option<(string, string)>,
                       sketchLabelL: Option<string>, padLength: real): (Result<string, FrameError>, map<string, DocObject>, Option<(string, string)>)
  {
    if Reuses(sketchR, sketchLabelL) then
      var name := sketchR.value.1;
      (if Holds(objects, Some(frame), name) then Ok(name) else Err(MissingObject(name)), objects, sketchR)
    else if sketchR.Some? && sketchR.value.1 !in objects then
      (Err(MissingObject(sketchR.value.1)), objects, sketchR)
    else
      var removed := if sketchR.Some? then objects - {sketchR.value.1} else objects;
      if FrameHeld(removed, frame) && Holds(removed, Some(frame), sketch) then
        var (n, after) := RightCopy(removed, frame, sketch, padLength);
        (Ok(n), after, Some((after[n].objectLabel, n)))
      else
        (Err(MissingObject(sketch)), removed, sketchR)
  }

  /** `getSketchR` changes nothing outside the frame but for removing the recorded
      right-end sketch; what it returns is a member of the frame. */
  lemma SketchRConfined(objects: map<string, DocObject>, frame: string, sketch: string, sketchR: Option<(string, string)>,
                        sketchLabelL: Option<string>, padLength: real)
    ensures var (r, after, _) := SketchRStep(objects, frame, sketch, sketchR, sketchLabelL, padLength);
      && Confined(objects, after, frame, RecordedRight(sketchR))
      && (r.Ok? ==> Holds(after, Some(frame), r.value))
  {
    var (r, after, _) := SketchRStep(objects, frame, sketch, sketchR, sketchLabelL, padLength);
    if !Reuses(sketchR, sketchLabelL) && !(sketchR.Some? && sketchR.value.1 !in objects) {
      var removed := if sketchR.Some? then objects - {sketchR.value.1} else objects;
      if sketchR.Some? {
        RemoveOneConfined(objects, frame, sketchR.value.1);
      } else {
        ConfinedRefl(objects, frame, {});
      }
      if FrameHeld(removed, frame) && Holds(removed, Some(frame), sketch) {
        RightCopyConfined(removed, frame, sketch, padLength);
        ConfinedTrans(objects, removed, after, frame, RecordedRight(sketchR), {});
        assert RecordedRight(sketchR) + {} == RecordedRight(sketchR);
      }
    }
  }

  /** Adding the right-end copy to the frame changes nothing outside it. */
  lemma RightCopyConfined(objects: map<string, DocObject>, frame: string, sketch: string, padLength: real)
    requires FrameHeld(objects, frame) && Holds(objects, Some(frame), sketch)
    ensures Confined(objects, RightCopy(objects, frame, sketch, padLength).1, frame, {})
  {
    var (n, after) := RightCopy(objects, frame, sketch, padLength);
    assert after[frame].group == objects[frame].group + [n];
  }

  /** The edge `execute` builds along: the edge name split at its one `':'`, the
      sketch found in the document and the sub-element found on it, with the
      sub-element's length. */
  function LocateEdge(objects: map<string, DocObject>, edgeName: string): (r: Result<(string, string, real), FrameError>)
    ensures ParseEdgeName(edgeName).Err? ==> r == Err(InvalidEdgeName(edgeName))
    ensures r.Ok? <==>
      && ParseEdgeName(edgeName).Ok?
      && ParseEdgeName(edgeName).value.0 in objects
      && ParseEdgeName(edgeName).value.1 in objects[ParseEdgeName(edgeName).value.0].subShapes
    ensures r.Ok? ==>
      var (sketch, sub) := ParseEdgeName(edgeName).value;
      r.value == (sketch, sub, objects[sketch].subShapes[sub].length) && edgeName == sketch + ":" + sub
  {
    match ParseEdgeName(edgeName)
    case Err(e) => Err(e)
    case Ok((sketch, sub)) =>
      if sketch !in objects then Err(MissingObject(sketch))
      else if sub !in objects[sketch].subShapes then Err(MissingObject(edgeName))
      else Ok((sketch, sub, objects[sketch].subShapes[sub].length))
  }

  /** What placing the piece on its edge writes: the feature's length, shape,
      attachment and recompute count, and the values the proxy last applied. */
  function Placed(obj: FrameFeature, proxy: ProfileFrameObject):
    (real, Option<string>, Placement, nat, Option<(string, string)>, bool, (real, real, real, real))
    reads obj, proxy
  {
    (obj.length, obj.shape, obj.attachmentOffset, obj.recomputes, obj.attachmentSupport, obj.normalToEdge,
     (proxy.lastOffsetX, proxy.lastOffsetY, proxy.lastAngle, proxy.lastOffsetZ))
  }

  /** What a completed `execute` leaves on the piece: the stock length counts the
      main pad and each chamfered end's extension once, the ends keep their angle and
      direction, a chamfered end's extension is non-negative and read-only, a clean
      end's memo slot is empty, the piece shows `base`, and the proxy remembers the
      offsets and angle it applied. */
  predicate PieceBuilt(proxy: ProfileFrameObject, obj: FrameFeature, left: EndSettings, right: EndSettings, padLength: real, base: string)
    reads proxy, obj
  {
    && |proxy.chamferSketchCache| == 2
    && obj.length == FrameLength(padLength, obj.left, obj.right)
    && obj.left.chamferAngle == left.chamferAngle && obj.left.chamferDirection == left.chamferDirection
    && obj.right.chamferAngle == right.chamferAngle && obj.right.chamferDirection == right.chamferDirection
    && (left.chamferAngle > 0.0 ==> obj.left.extendedLength >= 0.0 && obj.readOnlyL)
    && (left.chamferAngle <= 0.0 ==> proxy.chamferSketchCache[0] == None)
    && (right.chamferAngle > 0.0 ==> obj.right.extendedLength >= 0.0 && obj.readOnlyR)
    && (right.chamferAngle <= 0.0 ==> proxy.chamferSketchCache[1] == None)
    && obj.shape == Some(base)
    && proxy.lastOffsetX == obj.offsetX && proxy.lastOffsetY == obj.offsetY && proxy.lastAngle == obj.angle
  }

  /** What `execute` ends with. */
  datatype Outcome = Skipped | Failed(error: FrameError) | Built(base: string)

  /** The proxy's saved fields as values. */
  datatype ProxyFields = ProxyFields(
    lastOffsetX: real, lastOffsetY: real, lastOffsetZ: real, lastAngle: real,
    chamferSketchCache: seq<Option<ChamferKey>>,
    sketchLabelL: Option<string>,
    sketchR: Option<(string, string)>)

  /** The dictionary `__getstate__` returns: the four quantities as text, the rest as
      they are. */
  datatype SavedState = SavedState(
    lastOffsetX: string, lastOffsetY: string, lastOffsetZ: string, lastAngle: string,
    chamferSketchCache: seq<Option<ChamferKey>>,
    sketchLabelL: Option<string>,
    sketchR: Option<(string, string)>)

  /** `__getstate__`; `toStr` is `Quantity.toStr`. */
  function EncodeState(f: ProxyFields, toStr: real -> string): SavedState {
    SavedState(toStr(f.lastOffsetX), toStr(f.lastOffsetY), toStr(f.lastOffsetZ), toStr(f.lastAngle),
               f.chamferSketchCache, f.sketchLabelL, f.sketchR)
  }

  /** `__setstate__`; `parse` is `Quantity(str)`. */
  function DecodeState(s: SavedState, parse: string -> real): ProxyFields {
    ProxyFields(parse(s.lastOffsetX), parse(s.lastOffsetY), parse(s.lastOffsetZ), parse(s.lastAngle),
                s.chamferSketchCache, s.sketchLabelL, s.sketchR)
  }

  /** Saving and restoring passes the memo, the left sketch's label and the right
      sketch's record through unchanged; the four quantities come back exactly when
      the unit library reads back what it wrote. */
  lemma SaveRestore(f: ProxyFields, toStr: real -> string, parse: string -> real)
    ensures var g := DecodeState(EncodeState(f, toStr), parse);
      && g.chamferSketchCache == f.chamferSketchCache
      && g.sketchLabelL == f.sketchLabelL
      && g.sketchR == f.sketchR
      && ((forall x :: parse(toStr(x)) == x) ==> g == f)
  {
  }

  /** As written, `getSketchR` asks `CopyObj` to look for an existing child with the
      left sketch's label first; the left sketch is such a child, so the lookup always
      finds an object and no copy is ever made. */
  lemma GetSketchRAsWrittenNeverCopies(objects: map<string, DocObject>, frame: string, sketch: string)
    requires Holds(objects, Some(frame), sketch)
    ensures FirstWithLabel(objects, objects[frame].group, objects[sketch].objectLabel).Some?
  {
    var group := objects[frame].group;
    var i :| 0 <= i < |group| && group[i] == sketch;
  }

  /** When the left sketch is the first child carrying its label (the usual case:
      the frame's features are labelled by their names), the lookup returns the left
      sketch itself, which `getSketchR` then relabels and moves as if it were the
      right-end copy. */
  lemma GetSketchRAsWrittenReturnsLeft(objects: map<string, DocObject>, frame: string, sketch: string, i: nat)
    requires Holds(objects, Some(frame), sketch)
    requires i < |objects[frame].group| && objects[frame].group[i] == sketch
    requires forall j :: 0 <= j < i && objects[frame].group[j] in objects ==>
      objects[objects[frame].group[j]].objectLabel != objects[sketch].objectLabel
    ensures FirstWithLabel(objects, objects[frame].group, objects[sketch].objectLabel) == Some(sketch)
  {
    FirstReturnsAt(objects, objects[frame].group, objects[sketch].objectLabel, i);
  }

  lemma {:induction false} FirstReturnsAt(objects: map<string, DocObject>, group: seq<string>, wanted: string, i: nat)
    requires i < |group| && group[i] in objects && objects[group[i]].objectLabel == wanted
    requires forall j :: 0 <= j < i && group[j] in objects ==> objects[group[j]].objectLabel != wanted
    ensures FirstWithLabel(objects, group, wanted) == Some(group[i])
  {
    if i > 0 {
      assert forall j :: 0 <= j < i - 1 && group[1..][j] in objects ==> objects[group[1..][j]].objectLabel != wanted by {
        forall j | 0 <= j < i - 1 && group[1..][j] in objects
          ensures objects[group[1..][j]].objectLabel != wanted
        {
          assert group[1..][j] == group[j + 1];
        }
      }
      FirstReturnsAt(objects, group[1..], wanted, i - 1);
    }
  }

  /** The feature object `obj`: a `PartDesign::FeatureAdditivePython` carrying the
      properties the add-in defines. */
  class FrameFeature {
    const name: string
    var proxy: ProfileFrameObject?
    var sketch: string                      // `Sketch`: the name of the local copy of the profile sketch
    var edgeName: string                    // `EdgeName`: `"Sketch:EdgeN"`
    var offsetX: real
    var offsetY: real
    var angle: real
    var length: real                        // `Length`, read-only in the property editor
    var left: EndSettings                   // `ChamferAngleL`, `ChamferDirectionL`, `ExtendedLengthL`
    var right: EndSettings                  // the same for the right end
    var readOnlyL: bool                     // editor mode of `ExtendedLengthL`
    var readOnlyR: bool                     // editor mode of `ExtendedLengthR`
    var attachmentOffset: Placement
    var attachmentSupport: Option<(string, string)>
    var normalToEdge: bool                  // `MapMode == 'NormalToEdge'`
    var shape: Option<string>               // the feature whose `Shape` the piece shows
    var recomputes: nat

    /** A freshly added feature, before the proxy adds its properties. */
    constructor (name: string)
      ensures this.name == name && proxy == null && shape == None && recomputes == 0
    {
      this.name := name;
      proxy := null;
      sketch := "";
      edgeName := "";
      offsetX := 0.0;
      offsetY := 0.0;
      angle := 0.0;
      length := 0.0;
      left := EndSettings(0.0, 1, 0.0);
      right := EndSettings(0.0, 1, 0.0);
      readOnlyL := false;
      readOnlyR := false;
      attachmentOffset := Identity;
      attachmentSupport := None;
      normalToEdge := false;
      shape := None;
      recomputes := 0;
    }

    /** The two ends' settings and `ExtendedLength` editor modes. */
    function Ends(): EndFields
      reads this
    {
      EndFields(left, readOnlyL, right, readOnlyR)
    }
  }

  /** The proxy: the bookkeeping that decides what `execute` may skip. */
  class ProfileFrameObject {
    var lastOffsetX: real
    var lastOffsetY: real
    var lastOffsetZ: real
    var lastAngle: real
    var chamferSketchCache: seq<Option<ChamferKey>>   // [left, right]
    var sketchLabelL: Option<string>                  // `sketchLableL`
    var sketchR: Option<(string, string)>             // `(Label, Name)` of the right-end sketch

    /** `ProfileFrameObject(obj)`: attaches itself to `obj`, gives `obj` its properties
        with their defaults and starts with an empty memo. */
    constructor (obj: FrameFeature)
      modifies obj`proxy, obj`sketch, obj`edgeName, obj`offsetX, obj`offsetY, obj`angle, obj`length, obj`left, obj`right
      ensures obj.proxy == this
      ensures obj.sketch == "" && obj.edgeName == ""
      ensures obj.offsetX == 0.0 && obj.offsetY == 0.0 && obj.angle == 0.0 && obj.length == 0.0
      ensures obj.left == EndSettings(0.0, 1, 0.0) && obj.right == EndSettings(0.0, 1, 0.0)
      ensures lastOffsetX == 0.0 && lastOffsetY == 0.0 && lastOffsetZ == 0.0 && lastAngle == 0.0
      ensures chamferSketchCache == [None, None] && sketchLabelL == None && sketchR == None
    {
      lastOffsetX := 0.0;
      lastOffsetY := 0.0;
      lastOffsetZ := 0.0;
      lastAngle := 0.0;
      chamferSketchCache := [None, None];
      sketchLabelL := None;
      sketchR := None;
      new;
      obj.proxy := this;
      obj.sketch := "";
      obj.edgeName := "";
      obj.offsetX := 0.0;
      obj.offsetY := 0.0;
      obj.angle := 0.0;
      obj.length := 0.0;
      obj.left := EndSettings(0.0, 1, 0.0);
      obj.right := EndSettings(0.0, 1, 0.0);
    }

    function Fields(): ProxyFields
      reads this
    {
      ProxyFields(lastOffsetX, lastOffsetY, lastOffsetZ, lastAngle, chamferSketchCache, sketchLabelL, sketchR)
    }

    /** `__getstate__`. */
    method GetState(toStr: real -> string) returns (state: SavedState)
      ensures state == EncodeState(Fields(), toStr)
    {
      state := SavedState(toStr(lastOffsetX), toStr(lastOffsetY), toStr(lastOffsetZ), toStr(lastAngle),
                          chamferSketchCache, sketchLabelL, sketchR);
    }

    /** `__setstate__`. */
    method SetState(state: SavedState, parse: string -> real)
      modifies this
      ensures Fields() == DecodeState(state, parse)
    {
      lastOffsetX := parse(state.lastOffsetX);
      lastOffsetY := parse(state.lastOffsetY);
      lastOffsetZ := parse(state.lastOffsetZ);
      lastAngle := parse(state.lastAngle);
      chamferSketchCache := state.chamferSketchCache;
      sketchLabelL := state.sketchLabelL;
      sketchR := state.sketchR;
    }

    /** `apply_offset_and_rotation`: nothing happens when the four values are the ones
        last applied; otherwise the attachment offset becomes the offset `(x, y, z)`
        turned by `angle` about Z, the feature is recomputed and the values are
        remembered. Either way the remembered values are the arguments afterwards, so
        an immediate repeat changes nothing. */
    method ApplyOffsetAndRotation(obj: FrameFeature, x: real, y: real, angle: real, z: real)
      modifies this`lastOffsetX, this`lastOffsetY, this`lastOffsetZ, this`lastAngle
      modifies obj`attachmentOffset, obj`recomputes
      ensures lastOffsetX == x && lastOffsetY == y && lastAngle == angle && lastOffsetZ == z
      ensures var same := old(lastOffsetX) == x && old(lastOffsetY) == y && old(lastAngle) == angle && old(lastOffsetZ) == z;
        if same then
          obj.attachmentOffset == old(obj.attachmentOffset) && obj.recomputes == old(obj.recomputes)
        else
          obj.attachmentOffset == Placement(x, y, z, AboutZ(angle)) && obj.recomputes == old(obj.recomputes) + 1
    {
      if x == lastOffsetX && y == lastOffsetY && angle == lastAngle && z == lastOffsetZ {
        return;
      }
      obj.attachmentOffset := Placement(x, y, z, AboutZ(angle));
      obj.recomputes := obj.recomputes + 1;
      lastOffsetX := x;
      lastOffsetY := y;
      lastOffsetZ := z;
      lastAngle := angle;
    }

    /** `pad`: the pad `frame_<name>` of the body is fetched or created; its four
        inputs are set, and the pad recomputed, only when one of them differs; the
        sketch and the pad are hidden. */
    method Pad(doc: Document, sketch: string, length: real, body: string, name: string, reversed: bool, baseFeature: Option<string>)
      returns (pad: string)
      requires FrameHeld(doc.objects, body) && Holds(doc.objects, Some(body), sketch)
      modifies doc
      ensures StartsWith(pad, PadName(name)) && StartsWith(pad, "frame_") && Holds(doc.objects, Some(body), pad)
      ensures FetchedAs(old(doc.objects), body, PadName(name), pad)
      ensures doc.objects[pad]
        == PadAfter(Found(old(doc.objects), body, PadName(name), pad, "PartDesign::Pad"), FeatureInputs(Some(sketch), length, reversed, baseFeature))
      ensures sketch in doc.objects && (sketch != pad ==> doc.objects[sketch] == old(doc.objects[sketch]).(visible := false))
      ensures FrameHeld(doc.objects, body)
      ensures Untouched(old(doc.objects), doc.objects, body, {pad, sketch}) && Members(old(doc.objects), doc.objects, body, {pad})
    {
      ghost var start := doc.objects;
      pad := GetOrCreate(doc, Some(body), PadName(name), "PartDesign::Pad");
      ObtainKeeps(start, body, PadName(name), "PartDesign::Pad", {pad, sketch});
      ObtainFound(start, body, PadName(name), "PartDesign::Pad");
      ghost var created := doc.objects;
      SetPadInputs(doc, body, pad, sketch, FeatureInputs(Some(sketch), length, reversed, baseFeature));
      UntouchedTrans(start, created, doc.objects, body, {pad, sketch}, {pad, sketch});
      MembersTrans(start, created, doc.objects, body, {pad}, {});
      assert {pad, sketch} + {pad, sketch} == {pad, sketch} && {pad} + {} == {pad};
    }

    /** The updates `pad` makes once the pad is fetched or created: its inputs set, and
        the pad recomputed, only when they differ; then the sketch and the pad hidden. */
    method SetPadInputs(doc: Document, body: string, pad: string, sketch: string, target: FeatureInputs)
      requires FrameHeld(doc.objects, body) && Holds(doc.objects, Some(body), pad) && Holds(doc.objects, Some(body), sketch)
      modifies doc
      ensures Holds(doc.objects, Some(body), pad)
      ensures doc.objects[pad] == PadAfter(old(doc.objects[pad]), target)
      ensures sketch in doc.objects && (sketch != pad ==> doc.objects[sketch] == old(doc.objects[sketch]).(visible := false))
      ensures Untouched(old(doc.objects), doc.objects, body, {pad, sketch}) && Members(old(doc.objects), doc.objects, body, {})
      ensures FrameHeld(doc.objects, body)
    {
      var m := doc.objects;
      var o := m[pad];
      if o.inputs != target {
        m := m[pad := o.(inputs := target, recomputes := o.recomputes + 1)];
      }
      m := m[sketch := m[sketch].(visible := false)];
      m := m[pad := m[pad].(visible := false)];
      assert m[pad] == PadAfter(o, target);
      RewriteOnly(doc.objects, m, body, {pad, sketch});
      doc.objects := m;
    }

    /** `draw_chamfer_sketch`: the cutting sketch is attached to the base feature's XY
        plane, offset along it and turned by the direction, hidden, and the triangle
        of `length` and `width` (mirrored at the right end) is appended. */
    method DrawChamferSketch(doc: Document, cutting: string, length: real, width: real, baseFeature: string,
                             direction: int, offset: real, right: bool)
      requires cutting in doc.objects
      modifies doc
      ensures var c := old(doc.objects[cutting]);
        doc.objects == old(doc.objects)[cutting := c.(
          support := Some(baseFeature), objectXY := true,
          offset := ChamferPlacement(offset, direction),
          visible := false, recomputes := c.recomputes + 2,
          geometry := c.geometry + ChamferSegments(length, width, right))]
    {
      var c := doc.objects[cutting];
      c := c.(support := Some(baseFeature), objectXY := true,
              offset := ChamferPlacement(offset, direction),
              visible := false, recomputes := c.recomputes + 1);
      var t := Triangle(length, width, right);
      ghost var g := c.geometry;
      c := c.(geometry := c.geometry + [Segment(t[0], t[1])]);
      c := c.(geometry := c.geometry + [Segment(t[1], t[2])]);
      c := c.(geometry := c.geometry + [Segment(t[2], t[0])]);
      assert c.geometry == g + ChamferSegments(length, width, right);
      c := c.(recomputes := c.recomputes + 1);
      doc.objects := doc.objects[cutting := c];
    }

    /** The cutting-sketch step of `create_chamfer`: the sketch is fetched or created;
        when the memo's key for this end differs from `key`, the old geometry is
        cleared (only when a key was recorded), the triangle is drawn and the key is
        recorded. */
    method UpdateCuttingSketch(doc: Document, body: string, name: string, key: ChamferKey, offset: real, right: bool)
      returns (cutting: string)
      requires FrameHeld(doc.objects, body) && |chamferSketchCache| == 2
      modifies this`chamferSketchCache, doc
      ensures chamferSketchCache == old(chamferSketchCache)[Slot(right) := Some(key)]
      ensures Holds(doc.objects, Some(body), cutting) && StartsWith(cutting, CuttingSketchName(name))
      ensures FetchedAs(old(doc.objects), body, CuttingSketchName(name), cutting)
      ensures var found := Found(old(doc.objects), body, CuttingSketchName(name), cutting, "Sketcher::SketchObject");
        var recorded := old(chamferSketchCache[Slot(right)]);
        doc.objects[cutting] == if recorded == Some(key) then found else Redrawn(found, recorded, key, offset, right)
      ensures old(chamferSketchCache[Slot(right)]) != Some(key) ==> AttachedAt(doc.objects[cutting], key.baseFeature, key.direction, offset)
      ensures ChamferStep(EndState(old(chamferSketchCache[Slot(right)]), CuttingView(old(doc.objects), body, name)), key, right).cutting
        == Some(doc.objects[cutting].geometry)
      ensures Holds(old(doc.objects), Some(body), CuttingSketchName(name)) || CuttingSketchName(name) !in old(doc.objects) ==>
        cutting == CuttingSketchName(name)
      ensures FrameHeld(doc.objects, body)
      ensures Untouched(old(doc.objects), doc.objects, body, {cutting}) && Members(old(doc.objects), doc.objects, body, {cutting})
    {
      ghost var start := doc.objects;
      cutting := GetOrCreate(doc, Some(body), CuttingSketchName(name), "Sketcher::SketchObject");
      ObtainKeeps(start, body, CuttingSketchName(name), "Sketcher::SketchObject", {cutting});
      ObtainFound(start, body, CuttingSketchName(name), "Sketcher::SketchObject");
      ghost var created := doc.objects;
      assert EndState(chamferSketchCache[Slot(right)], CuttingView(start, body, name)).cutting.Some? ==>
        CuttingView(start, body, name).value == created[cutting].geometry;
      RedrawIfChanged(doc, body, cutting, key, offset, right);
      UntouchedTrans(start, created, doc.objects, body, {cutting}, {cutting});
      MembersTrans(start, created, doc.objects, body, {cutting}, {});
      assert {cutting} + {cutting} == {cutting};
    }

    /** The memo test of `create_chamfer` on a fetched cutting sketch. */
    method RedrawIfChanged(doc: Document, body: string, cutting: string, key: ChamferKey, offset: real, right: bool)
      requires FrameHeld(doc.objects, body) && Holds(doc.objects, Some(body), cutting) && |chamferSketchCache| == 2
      modifies this`chamferSketchCache, doc
      ensures chamferSketchCache == old(chamferSketchCache)[Slot(right) := Some(key)]
      ensures Holds(doc.objects, Some(body), cutting)
      ensures var recorded := old(chamferSketchCache[Slot(right)]);
        doc.objects[cutting]
        == if recorded == Some(key) then old(doc.objects[cutting]) else Redrawn(old(doc.objects[cutting]), recorded, key, offset, right)
      ensures old(chamferSketchCache[Slot(right)]) != Some(key) ==> AttachedAt(doc.objects[cutting], key.baseFeature, key.direction, offset)
      ensures ChamferStep(EndState(old(chamferSketchCache[Slot(right)]), Some(old(doc.objects[cutting].geometry))), key, right).cutting
        == Some(doc.objects[cutting].geometry)
      ensures FrameHeld(doc.objects, body)
      ensures Untouched(old(doc.objects), doc.objects, body, {cutting}) && Members(old(doc.objects), doc.objects, body, {})
    {
      var slot := Slot(right);
      ghost var start := doc.objects;
      if chamferSketchCache[slot] != Some(key) {
        if chamferSketchCache[slot] != None {
          var c := doc.objects[cutting];
          doc.objects := doc.objects[cutting := c.(geometry := [], constraints := 0)];
        }
        DrawChamferSketch(doc, cutting, key.extendedLength, key.width, key.baseFeature, key.direction, offset, right);
        chamferSketchCache := chamferSketchCache[slot := Some(key)];
        RedrawnAttached(start[cutting], old(chamferSketchCache[slot]), key, offset, right);
      }
      assert doc.objects == start[cutting := doc.objects[cutting]];
      SetOne(start, body, cutting, doc.objects[cutting]);
    }

    /** `create_chamfer`: the end called `name` is extended by a pad of
        `ExtendedLength` on top of `baseFeature`, the cutting sketch is redrawn when the
        memo's key changed, and a pocket through all, both ways, cuts the triangle off
        the extension. */
    method CreateChamfer(doc: Document, body: string, sketch: string, angle: real, direction: int, baseFeature: string,
                         name: string, offset: real, right: bool, tanDeg: real -> real)
      returns (pocket: string, extendedLength: real, ghost extension: string, ghost cutting: string)
      requires FrameHeld(doc.objects, body) && Holds(doc.objects, Some(body), sketch) && |chamferSketchCache| == 2
      modifies this`chamferSketchCache, doc
      ensures |chamferSketchCache| == 2 && chamferSketchCache == old(chamferSketchCache)[Slot(right) := chamferSketchCache[Slot(right)]]
      ensures ChamferMade(old(doc.objects), doc.objects, body, sketch, angle, direction, baseFeature, name, offset, right, tanDeg,
                          old(chamferSketchCache[Slot(right)]), chamferSketchCache[Slot(right)], extendedLength, EndParts(extension, cutting, pocket))
      ensures FrameHeld(doc.objects, body)
      ensures Untouched(old(doc.objects), doc.objects, body, {extension, sketch, cutting, pocket})
      ensures Members(old(doc.objects), doc.objects, body, {extension, cutting, pocket})
      ensures Confined(old(doc.objects), doc.objects, body, {})
    {
      var width := ChamferWidth(doc.objects[sketch].bbox, direction);
      extendedLength := ExtendedLength(tanDeg, angle, width);
      ghost var start, recorded := doc.objects, chamferSketchCache[Slot(right)];
      var ext := Pad(doc, sketch, extendedLength, body, ExtensionPadLabel(name), right, Some(baseFeature));
      extension := ext;
      ghost var padded := doc.objects;
      PadKeepsCuttingView(start, padded, body, name, ext, sketch);
      var key := ChamferKey(extendedLength, width, baseFeature, direction);
      var sketchObj;
      sketchObj, pocket := CutChamfer(doc, body, name, ext, key, offset, right);
      cutting := sketchObj;
      ChamferLeftHolds(start, padded, doc.objects, body, name, sketch, ext, sketchObj, pocket, recorded, key, offset, right);
      ChamferFrames(start, padded, doc.objects, body, name, ext, sketch, sketchObj, pocket);
    }

    /** The cutting and pocket steps of `create_chamfer` on the document the
        extension pad `extension` is in: the cutting sketch is fetched and redrawn
        when the memo's key changed, then the pocket is fetched and set to cut it out
        of the extension. */
    method CutChamfer(doc: Document, body: string, name: string, extension: string, key: ChamferKey, offset: real, right: bool)
      returns (cutting: string, pocket: string)
      requires FrameHeld(doc.objects, body) && Holds(doc.objects, Some(body), extension) && StartsWith(extension, "frame_")
      requires |chamferSketchCache| == 2
      modifies this`chamferSketchCache, doc
      ensures chamferSketchCache == old(chamferSketchCache)[Slot(right) := Some(key)]
      ensures Holds(doc.objects, Some(body), cutting) && StartsWith(cutting, CuttingSketchName(name))
      ensures Holds(doc.objects, Some(body), pocket) && StartsWith(pocket, PocketName(name))
      ensures ChamferStep(EndState(old(chamferSketchCache[Slot(right)]), CuttingView(old(doc.objects), body, name)), key, right).cutting
        == Some(doc.objects[cutting].geometry)
      ensures CutLeft(old(doc.objects), doc.objects, body, name, extension, cutting, pocket, old(chamferSketchCache[Slot(right)]), key, offset, right)
      ensures FrameHeld(doc.objects, body)
      ensures Untouched(old(doc.objects), doc.objects, body, {extension, cutting, pocket})
      ensures Members(old(doc.objects), doc.objects, body, {cutting, pocket})
    {
      ghost var start := doc.objects;
      cutting := UpdateCuttingSketch(doc, body, name, key, offset, right);
      ghost var drawn := doc.objects;
      pocket := ConfigurePocket(doc, body, name, extension, cutting);
      ChamferPartsDistinct(name, extension, cutting, pocket);
      UntouchedAt(start, drawn, body, {cutting}, extension);
      UntouchedAt(drawn, doc.objects, body, {pocket, extension}, cutting);
      CuttingStepFrames(start, drawn, doc.objects, body, name, extension, cutting, pocket);
      PocketAfterCuts(Found(start, body, PocketName(name), pocket, "PartDesign::Pocket"), extension, cutting);
    }

    /** `execute`: nothing happens without a sketch or an edge name; an edge name
        without exactly one `':'`, or an edge, sketch or local sketch that cannot be
        found, fails before anything changes. Otherwise the main pad along the edge is
        built, each end is chamfered or cleaned, the piece's `Length` is set, and the
        piece is placed on the edge with its offsets and angle. */
    method Execute(doc: Document, obj: FrameFeature, tanDeg: real -> real) returns (outcome: Outcome, ghost trace: BuildTrace)
      requires FrameHeld(doc.objects, obj.name) && |chamferSketchCache| == 2
      modifies doc, this`chamferSketchCache, this`sketchR, this`lastOffsetX, this`lastOffsetY, this`lastOffsetZ, this`lastAngle
      modifies obj`left, obj`readOnlyL, obj`right, obj`readOnlyR
      modifies obj`length, obj`shape, obj`attachmentOffset, obj`recomputes, obj`attachmentSupport, obj`normalToEdge
      ensures |chamferSketchCache| == 2
      ensures outcome == Skipped <==> old(obj.sketch) == "" || old(obj.edgeName) == ""
      ensures var located := LocateEdge(old(doc.objects), old(obj.edgeName));
        old(obj.sketch) != "" && old(obj.edgeName) != "" && located.Err? ==>
          outcome == Failed(located.error)
      ensures var located := LocateEdge(old(doc.objects), old(obj.edgeName));
        old(obj.sketch) != "" && old(obj.edgeName) != "" && located.Ok? && !Holds(old(doc.objects), Some(obj.name), old(obj.sketch)) ==>
          outcome == Failed(MissingObject(old(obj.sketch)))
      ensures outcome.Skipped? || (outcome.Failed? && LocateEdge(old(doc.objects), old(obj.edgeName)).Err?)
              || (outcome.Failed? && !Holds(old(doc.objects), Some(obj.name), old(obj.sketch))) ==>
        doc.objects == old(doc.objects) && unchanged(this) && unchanged(obj)
      ensures outcome.Built? ==>
        var located := LocateEdge(old(doc.objects), old(obj.edgeName));
        && located.Ok?
        && PieceBuilt(this, obj, old(obj.left), old(obj.right), PadLength(located.value.2, old(obj.left), old(obj.right)), outcome.base)
        && (old(obj.left.chamferAngle) > 0.0 ==>
              obj.left.extendedLength
              == ExtendedLength(tanDeg, old(obj.left.chamferAngle), ChamferWidth(old(doc.objects[obj.sketch].bbox), old(obj.left.chamferDirection))))
        && StartsWith(outcome.base,
             if old(obj.right.chamferAngle) > 0.0 then PocketName(EndName(obj.name, true))
             else if old(obj.left.chamferAngle) > 0.0 then PocketName(EndName(obj.name, false))
             else PadName(old(obj.edgeName)))
        && lastOffsetZ == OffsetZ(old(obj.left))
        && (obj.attachmentOffset, obj.recomputes)
           == AppliedPlacement((old(lastOffsetX), old(lastOffsetY), old(lastAngle), old(lastOffsetZ)),
                               obj.offsetX, obj.offsetY, obj.angle, OffsetZ(old(obj.left)), old(obj.attachmentOffset), old(obj.recomputes))
        && obj.attachmentSupport == Some((located.value.0, located.value.1)) && obj.normalToEdge
      ensures var located := LocateEdge(old(doc.objects), old(obj.edgeName));
        old(obj.sketch) != "" && old(obj.edgeName) != "" && located.Ok? && Holds(old(doc.objects), Some(obj.name), old(obj.sketch)) ==>
          && !outcome.Skipped?
          && (trace.before, trace.after, trace.sketch, trace.edgeName, trace.padLength)
             == (old(doc.objects), doc.objects, obj.sketch, obj.edgeName, PadLength(located.value.2, old(obj.left), old(obj.right)))
          && (trace.was, trace.now, trace.cache, trace.sketchR, trace.r)
             == (EndFields(old(obj.left), old(obj.readOnlyL), old(obj.right), old(obj.readOnlyR)),
                 EndFields(obj.left, obj.readOnlyL, obj.right, obj.readOnlyR), chamferSketchCache, sketchR,
                 if outcome.Built? then Ok(outcome.base) else Err(outcome.error))
          && (trace.p0.chamferSketchCache, trace.p0.sketchR, trace.p0.sketchLabelL)
             == (old(chamferSketchCache), old(sketchR), sketchLabelL)
          && (forall t | t == trace :: EndsBuilt(obj.name, tanDeg, t))
          && (outcome.Failed? ==> Placed(obj, this) == old(Placed(obj, this)))
    {
      var none := EndParts("", "", "");
      trace := BuildTrace(map[], map[], "", "", 0.0, obj.Ends(), obj.Ends(), Fields(), [], None, Err(MissingObject("")), "", map[], map[], "", none, none);
      if obj.sketch == "" || obj.edgeName == "" {
        return Skipped, trace;
      }
      var located := LocateEdge(doc.objects, obj.edgeName);
      if located.Err? {
        return Failed(located.error), trace;
      }
      if !Holds(doc.objects, Some(obj.name), obj.sketch) {
        return Failed(MissingObject(obj.sketch)), trace;
      }
      outcome, trace := Build(doc, obj, located.value.0, located.value.1, located.value.2, tanDeg);
    }

    /** The building half of `execute`, once the edge and the local sketch are found. */
    method Build(doc: Document, obj: FrameFeature, edgeSketch: string, sub: string, edgeLength: real, tanDeg: real -> real)
      returns (outcome: Outcome, ghost trace: BuildTrace)
      requires FrameHeld(doc.objects, obj.name) && Holds(doc.objects, Some(obj.name), obj.sketch) && |chamferSketchCache| == 2
      modifies doc, this`chamferSketchCache, this`sketchR, this`lastOffsetX, this`lastOffsetY, this`lastOffsetZ, this`lastAngle
      modifies obj`left, obj`readOnlyL, obj`right, obj`readOnlyR
      modifies obj`length, obj`shape, obj`attachmentOffset, obj`recomputes, obj`attachmentSupport, obj`normalToEdge
      ensures |chamferSketchCache| == 2 && !outcome.Skipped?
      ensures (trace.before, trace.after, trace.sketch, trace.edgeName, trace.padLength)
              == (old(doc.objects), doc.objects, obj.sketch, obj.edgeName, PadLength(edgeLength, old(obj.left), old(obj.right)))
      ensures (trace.was, trace.now, trace.cache, trace.sketchR, trace.r)
              == (EndFields(old(obj.left), old(obj.readOnlyL), old(obj.right), old(obj.readOnlyR)),
                  EndFields(obj.left, obj.readOnlyL, obj.right, obj.readOnlyR), chamferSketchCache, sketchR,
                  if outcome.Built? then Ok(outcome.base) else Err(outcome.error))
      ensures (trace.p0.chamferSketchCache, trace.p0.sketchR, trace.p0.sketchLabelL) == (old(chamferSketchCache), old(sketchR), sketchLabelL)
      ensures forall t | t == trace :: EndsBuilt(obj.name, tanDeg, t)
      ensures outcome.Built? ==>
        && PieceBuilt(this, obj, old(obj.left), old(obj.right), PadLength(edgeLength, old(obj.left), old(obj.right)), outcome.base)
        && (old(obj.left.chamferAngle) > 0.0 ==>
              obj.left.extendedLength
              == ExtendedLength(tanDeg, old(obj.left.chamferAngle), ChamferWidth(old(doc.objects[obj.sketch].bbox), old(obj.left.chamferDirection))))
        && StartsWith(outcome.base,
             if old(obj.right.chamferAngle) > 0.0 then PocketName(EndName(obj.name, true))
             else if old(obj.left.chamferAngle) > 0.0 then PocketName(EndName(obj.name, false))
             else PadName(old(obj.edgeName)))
        && lastOffsetZ == OffsetZ(old(obj.left))
        && (obj.attachmentOffset, obj.recomputes)
           == AppliedPlacement((old(lastOffsetX), old(lastOffsetY), old(lastAngle), old(lastOffsetZ)),
                               obj.offsetX, obj.offsetY, obj.angle, OffsetZ(old(obj.left)), old(obj.attachmentOffset), old(obj.recomputes))
        && obj.attachmentSupport == Some((edgeSketch, sub)) && obj.normalToEdge
      ensures outcome.Failed? ==> Placed(obj, this) == old(Placed(obj, this))
    {
      var padLength := PadLength(edgeLength, obj.left, obj.right);
      var offsetZ := OffsetZ(obj.left);
      var built;
      built, trace := BuildEnds(doc, obj, padLength, tanDeg);
      if built.Err? {
        return Failed(built.error), trace;
      }
      EndsBuiltPiece(obj.name, tanDeg, trace);
      var base := built.value;
      Finish(obj, base, padLength, offsetZ, edgeSketch, sub);
      outcome := Built(base);
    }

    /** The end of `execute` once the feature is built: length, shape, placement and
        attachment to the edge. */
    method Finish(obj: FrameFeature, base: string, padLength: real, offsetZ: real, edgeSketch: string, sub: string)
      modifies this`lastOffsetX, this`lastOffsetY, this`lastOffsetZ, this`lastAngle
      modifies obj`length, obj`shape, obj`attachmentOffset, obj`recomputes, obj`attachmentSupport, obj`normalToEdge
      ensures obj.length == FrameLength(padLength, obj.left, obj.right) && obj.shape == Some(base)
      ensures lastOffsetX == obj.offsetX && lastOffsetY == obj.offsetY && lastAngle == obj.angle && lastOffsetZ == offsetZ
      ensures obj.attachmentSupport == Some((edgeSketch, sub)) && obj.normalToEdge
      ensures (obj.attachmentOffset, obj.recomputes)
        == AppliedPlacement((old(lastOffsetX), old(lastOffsetY), old(lastAngle), old(lastOffsetZ)),
                            obj.offsetX, obj.offsetY, obj.angle, offsetZ, old(obj.attachmentOffset), old(obj.recomputes))
    {
      obj.length := FrameLength(padLength, obj.left, obj.right);
      obj.shape := Some(base);
      ApplyOffsetAndRotation(obj, obj.offsetX, obj.offsetY, obj.angle, offsetZ);
      obj.attachmentSupport := Some((edgeSketch, sub));
      obj.normalToEdge := true;
    }

    /** The main pad and the two ends of `execute`; the result is the feature the
        piece shows. */
    method BuildEnds(doc: Document, obj: FrameFeature, padLength: real, tanDeg: real -> real)
      returns (r: Result<string, FrameError>, ghost trace: BuildTrace)
      requires FrameHeld(doc.objects, obj.name) && Holds(doc.objects, Some(obj.name), obj.sketch) && |chamferSketchCache| == 2
      modifies doc, this`chamferSketchCache, this`sketchR, obj`left, obj`readOnlyL, obj`right, obj`readOnlyR
      ensures |chamferSketchCache| == 2
      ensures (trace.before, trace.after, trace.sketch, trace.edgeName, trace.padLength)
              == (old(doc.objects), doc.objects, obj.sketch, obj.edgeName, padLength)
      ensures (trace.was, trace.now, trace.cache, trace.sketchR, trace.r)
              == (EndFields(old(obj.left), old(obj.readOnlyL), old(obj.right), old(obj.readOnlyR)),
                  EndFields(obj.left, obj.readOnlyL, obj.right, obj.readOnlyR), chamferSketchCache, sketchR, r)
      ensures (trace.p0.chamferSketchCache, trace.p0.sketchR, trace.p0.sketchLabelL) == (old(chamferSketchCache), old(sketchR), sketchLabelL)
      ensures forall t | t == trace :: EndsBuilt(obj.name, tanDeg, t)
    {
      ghost var start, sketch, edgeName, was, p0 := doc.objects, obj.sketch, obj.edgeName, EndFields(obj.left, obj.readOnlyL, obj.right, obj.readOnlyR),
        ProxyFields(lastOffsetX, lastOffsetY, lastOffsetZ, lastAngle, chamferSketchCache, sketchLabelL, sketchR);
      ghost var padded, leftParts;
      var base, mainPad;
      base, mainPad, padded, leftParts := PadLeft(doc, obj, padLength, tanDeg);
      ghost var leftDone, left, readOnlyL, slot0 := doc.objects, obj.left, obj.readOnlyL, chamferSketchCache[0];
      assert obj.sketch == sketch && obj.edgeName == edgeName && sketchR == p0.sketchR && sketchLabelL == p0.sketchLabelL;
      ghost var rightParts;
      r, rightParts := RightEnd(doc, obj, base, padLength, tanDeg);
      assert obj.sketch == sketch && obj.edgeName == edgeName && sketchLabelL == p0.sketchLabelL;
      trace := BuildTrace(start, doc.objects, sketch, edgeName, padLength, was, EndFields(obj.left, obj.readOnlyL, obj.right, obj.readOnlyR), p0, chamferSketchCache, sketchR, r,
                          mainPad, padded, leftDone, base, leftParts, rightParts);
      EndsBuiltOf(obj.name, tanDeg, trace);
    }

    /** The main pad and the left end of `execute`: `padded` is the document after the
        main pad `mainPad`, and the left end is built on that pad. */
    method PadLeft(doc: Document, obj: FrameFeature, padLength: real, tanDeg: real -> real)
      returns (base: string, mainPad: string, ghost padded: map<string, DocObject>, ghost parts: EndParts)
      requires FrameHeld(doc.objects, obj.name) && Holds(doc.objects, Some(obj.name), obj.sketch) && |chamferSketchCache| == 2
      modifies doc, this`chamferSketchCache, obj`left, obj`readOnlyL, obj`right, obj`readOnlyR
      ensures FrameHeld(doc.objects, obj.name) && |chamferSketchCache| == 2 && chamferSketchCache[1] == old(chamferSketchCache[1])
      ensures obj.right == old(obj.right) && obj.readOnlyR == old(obj.readOnlyR)
      ensures MainPadded(old(doc.objects), padded, obj.name, obj.sketch, obj.edgeName, padLength, mainPad)
      ensures EndDone(padded, doc.objects, obj.name, false, obj.sketch, mainPad, 0.0, tanDeg,
                      old(obj.left), old(obj.readOnlyL), obj.left, obj.readOnlyL, old(chamferSketchCache[0]), chamferSketchCache[0], base, parts)
      ensures Confined(padded, doc.objects, obj.name, {})
    {
      mainPad := MainPad(doc, obj, padLength);
      padded := doc.objects;
      base, parts := LeftEnd(doc, obj, mainPad, tanDeg);
    }

    /** The main pad of `execute`: the local sketch padded `padLength`, reversed, under
        the name of the edge, on no base feature. */
    method MainPad(doc: Document, obj: FrameFeature, padLength: real) returns (base: string)
      requires FrameHeld(doc.objects, obj.name) && Holds(doc.objects, Some(obj.name), obj.sketch)
      modifies doc
      ensures MainPadded(old(doc.objects), doc.objects, obj.name, obj.sketch, obj.edgeName, padLength, base)
      ensures doc.objects[obj.sketch].bbox == old(doc.objects[obj.sketch].bbox)
    {
      ghost var start := doc.objects;
      base := Pad(doc, obj.sketch, padLength, obj.name, obj.edgeName, true, None);
      PadConfined(start, doc.objects, obj.name, PadName(obj.edgeName), base, obj.sketch);
    }

    /** The left end in `execute`: chamfered on top of `base` when its angle is
        positive, with `ExtendedLengthL` set to the chamfer's extension and made
        read-only; cleaned otherwise. */
    method LeftEnd(doc: Document, obj: FrameFeature, base: string, tanDeg: real -> real) returns (newBase: string, ghost parts: EndParts)
      requires FrameHeld(doc.objects, obj.name) && Holds(doc.objects, Some(obj.name), obj.sketch) && |chamferSketchCache| == 2
      modifies doc, this`chamferSketchCache, obj`left, obj`readOnlyL, obj`right, obj`readOnlyR
      ensures FrameHeld(doc.objects, obj.name) && |chamferSketchCache| == 2 && chamferSketchCache[1] == old(chamferSketchCache[1])
      ensures obj.right == old(obj.right) && obj.readOnlyR == old(obj.readOnlyR)
      ensures EndDone(old(doc.objects), doc.objects, obj.name, false, obj.sketch, base, 0.0, tanDeg,
                      old(obj.left), old(obj.readOnlyL), obj.left, obj.readOnlyL, old(chamferSketchCache[0]), chamferSketchCache[0], newBase, parts)
      ensures Confined(old(doc.objects), doc.objects, obj.name, {})
    {
      if obj.left.chamferAngle > 0.0 {
        var pocket, extendedLength, extension, cutting :=
          CreateChamfer(doc, obj.name, obj.sketch, obj.left.chamferAngle, obj.left.chamferDirection, base,
                        EndName(obj.name, false), 0.0, false, tanDeg);
        obj.left := obj.left.(extendedLength := extendedLength);
        obj.readOnlyL := true;
        newBase := pocket;
        parts := EndParts(extension, cutting, pocket);
      } else {
        CleanChamfer(doc, obj, EndName(obj.name, false), false);
        newBase := base;
        parts := EndParts("", "", "");
      }
    }

    /** The right end in `execute`: chamfered on the right-end sketch, `padLength`
        back along the edge, when its angle is positive; cleaned otherwise. */
    method RightEnd(doc: Document, obj: FrameFeature, base: string, padLength: real, tanDeg: real -> real)
      returns (r: Result<string, FrameError>, ghost parts: EndParts)
      requires FrameHeld(doc.objects, obj.name) && |chamferSketchCache| == 2
      modifies doc, this`chamferSketchCache, this`sketchR, obj`left, obj`readOnlyL, obj`right, obj`readOnlyR
      ensures |chamferSketchCache| == 2 && chamferSketchCache[0] == old(chamferSketchCache[0])
      ensures obj.left == old(obj.left) && obj.readOnlyL == old(obj.readOnlyL)
      ensures RightDone(old(doc.objects), doc.objects, obj.name, obj.sketch, base, padLength, tanDeg, old(obj.right), old(obj.readOnlyR),
                        obj.right, obj.readOnlyR, old(sketchR), sketchLabelL, sketchR, old(chamferSketchCache[1]), chamferSketchCache[1], r, parts)
      ensures Confined(old(doc.objects), doc.objects, obj.name, if old(obj.right.chamferAngle) > 0.0 then RecordedRight(old(sketchR)) else {})
    {
      if obj.right.chamferAngle > 0.0 {
        r, parts := RightChamfer(doc, obj, base, padLength, tanDeg);
      } else {
        CleanChamfer(doc, obj, EndName(obj.name, true), true);
        r, parts := Ok(base), EndParts("", "", "");
      }
    }

    /** The chamfered right end: the right-end sketch is fetched or copied, and the
        chamfer is cut on it. */
    method RightChamfer(doc: Document, obj: FrameFeature, base: string, padLength: real, tanDeg: real -> real)
      returns (r: Result<string, FrameError>, ghost parts: EndParts)
      requires FrameHeld(doc.objects, obj.name) && |chamferSketchCache| == 2 && obj.right.chamferAngle > 0.0
      modifies doc, this`chamferSketchCache, this`sketchR, obj`right, obj`readOnlyR
      ensures |chamferSketchCache| == 2 && chamferSketchCache[0] == old(chamferSketchCache[0])
      ensures RightDone(old(doc.objects), doc.objects, obj.name, obj.sketch, base, padLength, tanDeg, old(obj.right), old(obj.readOnlyR),
                        obj.right, obj.readOnlyR, old(sketchR), sketchLabelL, sketchR, old(chamferSketchCache[1]), chamferSketchCache[1], r, parts)
      ensures Confined(old(doc.objects), doc.objects, obj.name, RecordedRight(old(sketchR)))
    {
      parts := EndParts("", "", "");
      ghost var start, was, recorded, slot := doc.objects, obj.right, this.sketchR, chamferSketchCache[1];
      var sketchR := GetSketchR(doc, obj, padLength);
      if sketchR.Err? {
        return Err(sketchR.error), parts;
      }
      ghost var copied, recordedAfter := doc.objects, this.sketchR;
      var pocket;
      pocket, parts := RightCut(doc, obj, sketchR.value, base, padLength, tanDeg);
      r := Ok(pocket);
      RightChamfered(start, copied, doc.objects, obj.name, obj.sketch, base, padLength, tanDeg, was, old(obj.readOnlyR),
                     obj.right, obj.readOnlyR, recorded, sketchLabelL, recordedAfter, slot, chamferSketchCache[1], r, parts, sketchR);
      ConfinedTrans(start, copied, doc.objects, obj.name, RecordedRight(recorded), {});
      assert RecordedRight(recorded) + {} == RecordedRight(recorded);
    }

    /** The chamfer of the right end, cut on the right-end sketch `sketch`,
        `padLength` back along the edge; `ExtendedLengthR` is set to the extension
        and made read-only. */
    method RightCut(doc: Document, obj: FrameFeature, sketch: string, base: string, padLength: real, tanDeg: real -> real)
      returns (pocket: string, ghost parts: EndParts)
      requires FrameHeld(doc.objects, obj.name) && Holds(doc.objects, Some(obj.name), sketch) && |chamferSketchCache| == 2
      modifies doc, this`chamferSketchCache, obj`right, obj`readOnlyR
      ensures |chamferSketchCache| == 2 && chamferSketchCache[0] == old(chamferSketchCache[0])
      ensures obj.right == old(obj.right).(extendedLength := obj.right.extendedLength) && obj.readOnlyR && pocket == parts.pocket
      ensures ChamferMade(old(doc.objects), doc.objects, obj.name, sketch, old(obj.right.chamferAngle), old(obj.right.chamferDirection),
                          base, EndName(obj.name, true), -padLength, true, tanDeg,
                          old(chamferSketchCache[1]), chamferSketchCache[1], obj.right.extendedLength, parts)
      ensures Confined(old(doc.objects), doc.objects, obj.name, {})
    {
      var extendedLength;
      ghost var extension, cutting;
      pocket, extendedLength, extension, cutting :=
        CreateChamfer(doc, obj.name, sketch, obj.right.chamferAngle, obj.right.chamferDirection, base,
                      EndName(obj.name, true), -padLength, true, tanDeg);
      obj.right := obj.right.(extendedLength := extendedLength);
      obj.readOnlyR := true;
      parts := EndParts(extension, cutting, pocket);
    }

    /** `clean_chamfer`, with the memo slot of the end forgotten as well: the pocket,
        the cutting sketch and the extension pad of the end called `name` are removed
        when the frame holds them; when the extension pad was there, the end's
        `ExtendedLength` goes back to 0 and becomes editable again. */
    method CleanChamfer(doc: Document, obj: FrameFeature, name: string, right: bool)
      requires FrameHeld(doc.objects, obj.name) && |chamferSketchCache| == 2
      modifies doc, obj`left, obj`right, obj`readOnlyL, obj`readOnlyR, this`chamferSketchCache
      ensures doc.objects == old(doc.objects) - HeldParts(old(doc.objects), obj.name, name)
      ensures forall n :: n in ChamferParts(name) ==> !Holds(doc.objects, Some(obj.name), n)
      ensures FrameHeld(doc.objects, obj.name)
      ensures chamferSketchCache == old(chamferSketchCache)[Slot(right) := None]
      ensures Confined(old(doc.objects), doc.objects, obj.name, {})
      ensures var reset := Holds(old(doc.objects), Some(obj.name), ChamferParts(name)[2]);
        && obj.left == (if reset && !right then old(obj.left).(extendedLength := 0.0) else old(obj.left))
        && obj.readOnlyL == (if reset && !right then false else old(obj.readOnlyL))
        && obj.right == (if reset && right then old(obj.right).(extendedLength := 0.0) else old(obj.right))
        && obj.readOnlyR == (if reset && right then false else old(obj.readOnlyR))
    {
      var reset := RemoveParts(doc, obj.name, name);
      if reset {
        if right {
          obj.right := obj.right.(extendedLength := 0.0);
          obj.readOnlyR := false;
        } else {
          obj.left := obj.left.(extendedLength := 0.0);
          obj.readOnlyL := false;
        }
      }
      chamferSketchCache := chamferSketchCache[Slot(right) := None];
    }

    /** `getSketchR`, with the copy made unconditionally: a recorded right-end sketch
        whose label still starts with the left sketch's label and `_R` is reused;
        otherwise the recorded one is removed and a fresh copy of the local sketch is
        attached to it, `padLength` further along its normal, and recorded. */
    method GetSketchR(doc: Document, obj: FrameFeature, padLength: real) returns (r: Result<string, FrameError>)
      requires FrameHeld(doc.objects, obj.name)
      modifies doc, this`sketchR
      ensures r.Ok? ==> Holds(doc.objects, Some(obj.name), r.value) && FrameHeld(doc.objects, obj.name)
      ensures (r, doc.objects, sketchR) == SketchRStep(old(doc.objects), obj.name, obj.sketch, old(sketchR), sketchLabelL, padLength)
      ensures Confined(old(doc.objects), doc.objects, obj.name, RecordedRight(old(sketchR)))
    {
      SketchRConfined(doc.objects, obj.name, obj.sketch, sketchR, sketchLabelL, padLength);
      if sketchR.Some? {
        var recorded, name := sketchR.value.0, sketchR.value.1;
        if StartsWith(recorded, LabelText(sketchLabelL) + "_R") {
          if Holds(doc.objects, Some(obj.name), name) {
            return Ok(name);
          }
          return Err(MissingObject(name));
        }
        var removed := doc.RemoveObject(name);
        if !removed {
          assert doc.objects == old(doc.objects);
          return Err(MissingObject(name));
        }
      }
      if !FrameHeld(doc.objects, obj.name) || !Holds(doc.objects, Some(obj.name), obj.sketch) {
        return Err(MissingObject(obj.sketch));
      }
      var source := doc.objects[obj.sketch];
      ghost var before := doc.objects;
      var n := CopyObj(doc, obj.sketch, source, obj.name, false);
      var copy := doc.objects[n];
      copy := copy.(support := Some(obj.sketch), objectXY := true);
      copy := copy.(offset := copy.offset.(x := 0.0, y := 0.0, z := -padLength));
      copy := copy.(objectLabel := copy.objectLabel + "_R");
      sketchR := Some((copy.objectLabel, n));
      copy := copy.(recomputes := copy.recomputes + 1);
      doc.objects := doc.objects[n := copy];
      AddToReplace(before, Some(obj.name), n, source, copy);
      r := Ok(n);
    }

    /** `setSketch`: nothing happens when the sketch carries the label recorded for
        the left sketch; otherwise the local copy recorded so far is removed and the
        frame's child with that label, or else a fresh copy of the sketch, becomes the
        local sketch. `ok` is false where the source raises. */
    method SetSketch(doc: Document, obj: FrameFeature, sketchName: string, sketch: DocObject) returns (ok: bool)
      modifies doc, obj`sketch, this`sketchLabelL
      ensures Some(sketch.objectLabel) == old(sketchLabelL) ==>
        ok && doc.objects == old(doc.objects) && obj.sketch == old(obj.sketch) && sketchLabelL == old(sketchLabelL)
      ensures Some(sketch.objectLabel) != old(sketchLabelL) && old(sketchLabelL).Some? && old(obj.sketch) !in old(doc.objects) ==>
        !ok && doc.objects == old(doc.objects) && obj.sketch == old(obj.sketch) && sketchLabelL == old(sketchLabelL)
      ensures Some(sketch.objectLabel) != old(sketchLabelL) && (old(sketchLabelL).None? || old(obj.sketch) in old(doc.objects)) ==>
        var removed := if old(sketchLabelL).Some? then old(doc.objects) - {old(obj.sketch)} else old(doc.objects);
        if obj.name in removed then
          && ok && sketchLabelL == Some(sketch.objectLabel)
          && (obj.sketch, doc.objects) == CopyOutcome(removed, sketchName, sketch, obj.name)
          && Holds(doc.objects, Some(obj.name), obj.sketch)
          && doc.objects[obj.sketch].objectLabel == sketch.objectLabel
          && doc.objects.Keys <= removed.Keys + {obj.sketch}
          && (forall k :: k in removed && k != obj.name ==> k in doc.objects && doc.objects[k] == removed[k])
        else
          !ok && doc.objects == removed && sketchLabelL == None && obj.sketch == old(obj.sketch)
    {
      if Some(sketch.objectLabel) == sketchLabelL {
        return true;
      }
      if sketchLabelL.Some? {
        var removed := doc.RemoveObject(obj.sketch);
        if !removed {
          return false;
        }
        sketchLabelL := None;
      }
      if obj.name !in doc.objects {
        return false;
      }
      var n := CopyObj(doc, sketchName, sketch, obj.name, true);
      obj.sketch := n;
      sketchLabelL := Some(sketch.objectLabel);
      ok := true;
    }
  }

  /** The cutting step and the pocket step together touch the extension, the
      cutting sketch and the pocket and add only the last two; the pocket is fetched
      as it would have been before the cutting step. */
  lemma CuttingStepFrames(start: map<string, DocObject>, drawn: map<string, DocObject>, end: map<string, DocObject>,
                          body: string, name: string, ext: string, cutting: string, pocket: string)
    requires FrameHeld(start, body) && StartsWith(cutting, CuttingSketchName(name))
    requires Untouched(start, drawn, body, {cutting}) && Members(start, drawn, body, {cutting})
    requires Untouched(drawn, end, body, {pocket, ext}) && Members(drawn, end, body, {pocket})
    requires FetchedAs(drawn, body, PocketName(name), pocket)
    ensures Untouched(start, end, body, {ext, cutting, pocket}) && Members(start, end, body, {cutting, pocket})
    ensures FetchedAs(start, body, PocketName(name), pocket)
    ensures Found(drawn, body, PocketName(name), pocket, "PartDesign::Pocket") == Found(start, body, PocketName(name), pocket, "PartDesign::Pocket")
  {
    UntouchedTrans(start, drawn, end, body, {cutting}, {pocket, ext});
    assert {cutting} + {pocket, ext} == {ext, cutting, pocket};
    MembersTrans(start, drawn, end, body, {cutting}, {pocket});
    assert {cutting} + {pocket} == {cutting, pocket};
    assert PocketName(name)[0] == 'C' && cutting[0] == 'c';
    FoundBefore(start, drawn, body, {cutting}, {cutting}, PocketName(name), pocket, "PartDesign::Pocket");
  }

  /** The pad step and the cutting step of `create_chamfer` together touch the
      extension pad, the profile sketch, the cutting sketch and the pocket, and add
      only the first, third and fourth to the body; as each of those is a member the
      body held or a new object, nothing outside the body changes. */
  lemma ChamferFrames(start: map<string, DocObject>, padded: map<string, DocObject>, end: map<string, DocObject>,
                      body: string, name: string, ext: string, sketch: string, cutting: string, pocket: string)
    requires FrameHeld(start, body) && Holds(start, Some(body), sketch)
    requires FetchedAs(start, body, PadName(ExtensionPadLabel(name)), ext)
    requires FetchedAs(start, body, CuttingSketchName(name), cutting) && FetchedAs(start, body, PocketName(name), pocket)
    requires Untouched(start, padded, body, {ext, sketch}) && Members(start, padded, body, {ext})
    requires Untouched(padded, end, body, {ext, cutting, pocket}) && Members(padded, end, body, {cutting, pocket})
    ensures Untouched(start, end, body, {ext, sketch, cutting, pocket}) && Members(start, end, body, {ext, cutting, pocket})
    ensures Confined(start, end, body, {})
  {
    UntouchedTrans(start, padded, end, body, {ext, sketch}, {ext, cutting, pocket});
    assert {ext, sketch} + {ext, cutting, pocket} == {ext, sketch, cutting, pocket};
    MembersTrans(start, padded, end, body, {ext}, {cutting, pocket});
    assert {ext} + {cutting, pocket} == {ext, cutting, pocket};
    UntouchedConfined(start, end, body, {ext, sketch, cutting, pocket}, {ext, cutting, pocket});
  }

  /** What the cutting and pocket steps of `create_chamfer` leave, from `before` to
      `after`: the cutting sketch found or created under its name, redrawn and
      attached when the memo's key `recorded` differs from `key`; the pocket found or
      created under its name and set to cut that sketch out of the extension; the
      extension only hidden. */
  ghost predicate CutLeft(before: map<string, DocObject>, after: map<string, DocObject>, body: string, name: string,
                          extension: string, cutting: string, pocket: string, recorded: Option<ChamferKey>, key: ChamferKey,
                          offset: real, right: bool) {
    && Holds(after, Some(body), cutting) && StartsWith(cutting, CuttingSketchName(name))
    && Holds(after, Some(body), pocket) && StartsWith(pocket, PocketName(name))
    && Holds(after, Some(body), extension) && extension in before && after[extension] == before[extension].(visible := false)
    && FetchedAs(before, body, CuttingSketchName(name), cutting)
    && (var found := Found(before, body, CuttingSketchName(name), cutting, "Sketcher::SketchObject");
        after[cutting] == if recorded == Some(key) then found else Redrawn(found, recorded, key, offset, right))
    && (recorded != Some(key) ==> AttachedAt(after[cutting], key.baseFeature, key.direction, offset))
    && FetchedAs(before, body, PocketName(name), pocket)
    && after[pocket] == PocketAfter(Found(before, body, PocketName(name), pocket, "PartDesign::Pocket"), extension, cutting)
    && after[pocket].inputs.baseFeature == Some(extension) && after[pocket].inputs.profile == Some(cutting) && !after[pocket].visible
  }

  /** What `create_chamfer` leaves of its three features, from `before` to `after`:
      the extension pad found or created under its name pads `sketch` by the key's
      length on its base feature, reversed exactly at the right end; the cutting
      sketch found or created, redrawn and attached at `offset` when the memo's key
      changed; the pocket found or created, cutting that sketch out of the extension;
      the extension and the pocket hidden. A found record is the one before, unless
      the profile sketch itself bears that name. */
  ghost predicate ChamferLeft(before: map<string, DocObject>, after: map<string, DocObject>, body: string, name: string,
                              sketch: string, extension: string, cutting: string, pocket: string,
                              recorded: Option<ChamferKey>, key: ChamferKey, offset: real, right: bool) {
    && Holds(after, Some(body), extension) && Holds(after, Some(body), cutting) && Holds(after, Some(body), pocket)
    && StartsWith(pocket, PocketName(name))
    && FetchedAs(before, body, PadName(ExtensionPadLabel(name)), extension)
    && after[extension] == PadAfter(Found(before, body, PadName(ExtensionPadLabel(name)), extension, "PartDesign::Pad"),
                                    FeatureInputs(Some(sketch), key.extendedLength, right, Some(key.baseFeature)))
    && FetchedAs(before, body, CuttingSketchName(name), cutting)
    && (recorded != Some(key) ==> AttachedAt(after[cutting], key.baseFeature, key.direction, offset))
    && (var found := Found(before, body, CuttingSketchName(name), cutting, "Sketcher::SketchObject");
        CuttingSketchName(name) != sketch ==>
          after[cutting] == if recorded == Some(key) then found else Redrawn(found, recorded, key, offset, right))
    && FetchedAs(before, body, PocketName(name), pocket)
    && (PocketName(name) != sketch ==>
          after[pocket] == PocketAfter(Found(before, body, PocketName(name), pocket, "PartDesign::Pocket"), extension, cutting))
    && after[pocket].inputs.baseFeature == Some(extension) && after[pocket].inputs.profile == Some(cutting)
    && !after[extension].visible && !after[pocket].visible
  }

  /** The pad step followed by the cutting and pocket steps leaves what `ChamferLeft`
      says. */
  lemma ChamferLeftHolds(start: map<string, DocObject>, padded: map<string, DocObject>, end: map<string, DocObject>,
                         body: string, name: string, sketch: string, ext: string, cutting: string, pocket: string,
                         recorded: Option<ChamferKey>, key: ChamferKey, offset: real, right: bool)
    requires FrameHeld(start, body) && StartsWith(ext, "frame_")
    requires FetchedAs(start, body, PadName(ExtensionPadLabel(name)), ext) && ext in padded
    requires padded[ext] == PadAfter(Found(start, body, PadName(ExtensionPadLabel(name)), ext, "PartDesign::Pad"),
                                     FeatureInputs(Some(sketch), key.extendedLength, right, Some(key.baseFeature)))
    requires Untouched(start, padded, body, {ext, sketch}) && Members(start, padded, body, {ext})
    requires CutLeft(padded, end, body, name, ext, cutting, pocket, recorded, key, offset, right)
    ensures ChamferLeft(start, end, body, name, sketch, ext, cutting, pocket, recorded, key, offset, right)
  {
    ChamferFound(start, padded, body, name, sketch, ext, cutting, pocket);
  }

  /** The cutting sketch and the pocket of `create_chamfer` are fetched from the
      document as it was before the extension pad: the pad step adds no object under
      their names and rewrites none of them, except the profile sketch itself. */
  lemma ChamferFound(start: map<string, DocObject>, padded: map<string, DocObject>, body: string, name: string,
                     sketch: string, ext: string, cutting: string, pocket: string)
    requires FrameHeld(start, body) && StartsWith(ext, "frame_")
    requires Untouched(start, padded, body, {ext, sketch}) && Members(start, padded, body, {ext})
    requires FetchedAs(padded, body, CuttingSketchName(name), cutting) && FetchedAs(padded, body, PocketName(name), pocket)
    ensures var n := CuttingSketchName(name);
      FetchedAs(start, body, n, cutting)
      && (n != sketch ==> Found(padded, body, n, cutting, "Sketcher::SketchObject") == Found(start, body, n, cutting, "Sketcher::SketchObject"))
    ensures var n := PocketName(name);
      FetchedAs(start, body, n, pocket)
      && (n != sketch ==> Found(padded, body, n, pocket, "PartDesign::Pocket") == Found(start, body, n, pocket, "PartDesign::Pocket"))
  {
    var c, p := CuttingSketchName(name), PocketName(name);
    assert c[0] == 'c' && p[0] == 'C' && ext[0] == 'f';
    FoundBefore(start, padded, body, {ext, sketch}, {ext}, c, cutting, "Sketcher::SketchObject");
    FoundBefore(start, padded, body, {ext, sketch}, {ext}, p, pocket, "PartDesign::Pocket");
  }

  /** The extension pad, the cutting sketch and the pocket of a chamfered end. */
  datatype EndParts = EndParts(extension: string, cutting: string, pocket: string)

  /** What `execute` leaves of one end, from the objects `before` to `after`: `was`
      and `now` are the end's settings and `ExtendedLength` editor mode before and
      after, `recorded` and `slot` its memo slot, and `newBase` the feature the next
      step builds on. A positive angle chamfers the end on `base` with the profile
      `sketch`, attached at `offset`: the end's `ExtendedLength` becomes the chamfer's
      extension and read-only, the memo records the new key, the parts are as
      `ChamferLeft` says and the cutting sketch's geometry is the memo's step; the
      pocket is the new base. Otherwise the end is cleaned: the parts the frame held
      are removed, the memo slot is emptied, and the extension goes back to 0 and
      becomes editable when the extension pad was there. */
  ghost predicate EndDone(before: map<string, DocObject>, after: map<string, DocObject>, frame: string, right: bool,
                          sketch: string, base: string, offset: real, tanDeg: real -> real,
                          was: EndSettings, wasReadOnly: bool, now: EndSettings, nowReadOnly: bool,
                          recorded: Option<ChamferKey>, slot: Option<ChamferKey>, newBase: string, parts: EndParts)
  {
    var name := EndName(frame, right);
    if was.chamferAngle > 0.0 then
      && now == was.(extendedLength := now.extendedLength) && nowReadOnly && newBase == parts.pocket
      && ChamferMade(before, after, frame, sketch, was.chamferAngle, was.chamferDirection, base, name, offset, right, tanDeg,
                     recorded, slot, now.extendedLength, parts)
    else
      && newBase == base && slot == None
      && after == before - HeldParts(before, frame, name)
      && (forall n :: n in ChamferParts(name) ==> !Holds(after, Some(frame), n))
      && (var reset := Holds(before, Some(frame), ChamferParts(name)[2]);
          now == (if reset then was.(extendedLength := 0.0) else was) && nowReadOnly == (if reset then false else wasReadOnly))
  }

  /** What `create_chamfer` leaves, from `before` to `after`: the extension is
      `extendedLength`, computed from the angle and the width of `sketch` across
      `direction`; the memo slot goes from `recorded` to `slot`, the key of this
      chamfer; the extension pad, the cutting sketch and the pocket are as
      `ChamferLeft` says, and the cutting sketch shows what the memo step draws. */
  ghost predicate ChamferMade(before: map<string, DocObject>, after: map<string, DocObject>, body: string, sketch: string,
                              angle: real, direction: int, baseFeature: string, name: string, offset: real, right: bool,
                              tanDeg: real -> real, recorded: Option<ChamferKey>, slot: Option<ChamferKey>,
                              extendedLength: real, parts: EndParts)
  {
    && sketch in before
    && var width := ChamferWidth(before[sketch].bbox, direction);
       var key := ChamferKey(extendedLength, width, baseFeature, direction);
       && extendedLength == ExtendedLength(tanDeg, angle, width)
       && slot == Some(key)
       && ChamferLeft(before, after, body, name, sketch, parts.extension, parts.cutting, parts.pocket, recorded, key, offset, right)
       && ChamferStep(EndState(recorded, CuttingView(before, body, name)), key, right).cutting == Some(after[parts.cutting].geometry)
  }

  /** The ends' settings and editor modes of a frame feature, as values. */
  datatype EndFields = EndFields(left: EndSettings, readOnlyL: bool, right: EndSettings, readOnlyR: bool)

  /** A run of `execute`'s building steps: the objects before and after, the local
      sketch, the edge name and the main pad's length it ran on, the feature's end
      fields and the proxy's fields before, the memo and the right-end record after,
      the result; then the intermediate states: the main pad and the objects after
      it, the objects and the base after the left end, and the parts of both ends. */
  datatype BuildTrace = BuildTrace(before: map<string, DocObject>, after: map<string, DocObject>,
                                   sketch: string, edgeName: string, padLength: real,
                                   was: EndFields, now: EndFields, p0: ProxyFields,
                                   cache: seq<Option<ChamferKey>>, sketchR: Option<(string, string)>,
                                   r: Result<string, FrameError>,
                                   mainPad: string, padded: map<string, DocObject>, leftDone: map<string, DocObject>,
                                   leftBase: string, left: EndParts, right: EndParts)

  /** The main pad of `execute`: the pad found or created under the edge's name pads
      the local sketch by `padLength`, reversed, on no base feature, recomputed only
      when its inputs differed; the sketch and the pad are hidden; the frame gains
      only the pad, and nothing outside the frame changes. */
  ghost predicate MainPadded(before: map<string, DocObject>, after: map<string, DocObject>, frame: string, sketch: string,
                             edgeName: string, padLength: real, pad: string)
  {
    && FrameHeld(after, frame) && Holds(after, Some(frame), pad) && Holds(after, Some(frame), sketch)
    && StartsWith(pad, PadName(edgeName))
    && FetchedAs(before, frame, PadName(edgeName), pad)
    && after[pad] == PadAfter(Found(before, frame, PadName(edgeName), pad, "PartDesign::Pad"), FeatureInputs(Some(sketch), padLength, true, None))
    && (sketch != pad ==> sketch in before && after[sketch] == before[sketch].(visible := false))
    && Untouched(before, after, frame, {pad, sketch}) && Members(before, after, frame, {pad})
    && Confined(before, after, frame, {})
  }

  /** A pad step changes nothing outside the body. */
  lemma PadConfined(before: map<string, DocObject>, after: map<string, DocObject>, body: string, n: string, pad: string, sketch: string)
    requires FrameHeld(before, body) && Holds(before, Some(body), sketch) && FetchedAs(before, body, n, pad)
    requires Untouched(before, after, body, {pad, sketch}) && Members(before, after, body, {pad})
    ensures Confined(before, after, body, {})
  {
    UntouchedConfined(before, after, body, {pad, sketch}, {pad});
  }

  /** What the building steps of `execute` leave, as the run `t` records them: the
      main pad as `MainPadded` says, the left end on it as `EndDone` says, then
      `getSketchR` and the right end on the left end's base (or `getSketchR`'s
      failure as the result); nothing outside the frame changes but the recorded
      right-end sketch. */
  ghost predicate EndsBuilt(frame: string, tanDeg: real -> real, t: BuildTrace)
  {
    && |t.p0.chamferSketchCache| == 2 && |t.cache| == 2
    && MainPadded(t.before, t.padded, frame, t.sketch, t.edgeName, t.padLength, t.mainPad)
    && EndDone(t.padded, t.leftDone, frame, false, t.sketch, t.mainPad, 0.0, tanDeg, t.was.left, t.was.readOnlyL,
               t.now.left, t.now.readOnlyL, t.p0.chamferSketchCache[0], t.cache[0], t.leftBase, t.left)
    && RightDone(t.leftDone, t.after, frame, t.sketch, t.leftBase, t.padLength, tanDeg, t.was.right, t.was.readOnlyR,
                 t.now.right, t.now.readOnlyR, t.p0.sketchR, t.p0.sketchLabelL, t.sketchR, t.p0.chamferSketchCache[1], t.cache[1],
                 t.r, t.right)
    && Confined(t.before, t.after, frame, if t.was.right.chamferAngle > 0.0 then RecordedRight(t.p0.sketchR) else {})
  }

  /** The right end of `execute`, from `before` to `after`: with a positive angle,
      the right-end sketch is fetched as `getSketchR` does, and a failure there is the
      result with nothing else changed; otherwise the end is chamfered on that sketch
      `padLength` back along the edge. With no positive angle the end is cleaned.
      `recorded` and `recordedAfter` are the right-end record before and after, `slot`
      and `slotAfter` the end's memo slot. */
  ghost predicate RightDone(before: map<string, DocObject>, after: map<string, DocObject>, frame: string, sketch: string,
                            base: string, padLength: real, tanDeg: real -> real, was: EndSettings, wasReadOnly: bool,
                            now: EndSettings, nowReadOnly: bool, recorded: Option<(string, string)>, labelL: Option<string>,
                            recordedAfter: Option<(string, string)>, slot: Option<ChamferKey>, slotAfter: Option<ChamferKey>,
                            r: Result<string, FrameError>, parts: EndParts)
  {
    var (s, copied, recordedR) := SketchRStep(before, frame, sketch, recorded, labelL, padLength);
    if was.chamferAngle > 0.0 && s.Err? then
      && r == Err(s.error) && after == copied && recordedAfter == recordedR
      && now == was && nowReadOnly == wasReadOnly && slotAfter == slot
    else if was.chamferAngle > 0.0 then
      && r.Ok? && recordedAfter == recordedR
      && EndDone(copied, after, frame, true, s.value, base, -padLength, tanDeg, was, wasReadOnly, now, nowReadOnly, slot, slotAfter, r.value, parts)
    else
      && r.Ok? && recordedAfter == recorded
      && EndDone(before, after, frame, true, sketch, base, -padLength, tanDeg, was, wasReadOnly, now, nowReadOnly, slot, slotAfter, r.value, parts)
  }

  /** A chamfer cut on the right-end sketch that `getSketchR` returned completes the
      right end. */
  lemma RightChamfered(before: map<string, DocObject>, copied: map<string, DocObject>, after: map<string, DocObject>,
                       frame: string, sketch: string, base: string, padLength: real, tanDeg: real -> real,
                       was: EndSettings, wasReadOnly: bool, now: EndSettings, nowReadOnly: bool,
                       recorded: Option<(string, string)>, labelL: Option<string>, recordedAfter: Option<(string, string)>,
                       slot: Option<ChamferKey>, slotAfter: Option<ChamferKey>, r: Result<string, FrameError>, parts: EndParts,
                       s: Result<string, FrameError>)
    requires was.chamferAngle > 0.0 && s.Ok? && r == Ok(parts.pocket)
    requires (s, copied, recordedAfter) == SketchRStep(before, frame, sketch, recorded, labelL, padLength)
    requires now == was.(extendedLength := now.extendedLength) && nowReadOnly
    requires ChamferMade(copied, after, frame, s.value, was.chamferAngle, was.chamferDirection, base, EndName(frame, true),
                         -padLength, true, tanDeg, slot, slotAfter, now.extendedLength, parts)
    ensures RightDone(before, after, frame, sketch, base, padLength, tanDeg, was, wasReadOnly, now, nowReadOnly,
                      recorded, labelL, recordedAfter, slot, slotAfter, r, parts)
  {
  }

  /** The building steps of `execute` in sequence make up `EndsBuilt`. */
  lemma EndsBuiltOf(frame: string, tanDeg: real -> real, t: BuildTrace)
    ensures (&& |t.p0.chamferSketchCache| == 2 && |t.cache| == 2
    && MainPadded(t.before, t.padded, frame, t.sketch, t.edgeName, t.padLength, t.mainPad)
    && EndDone(t.padded, t.leftDone, frame, false, t.sketch, t.mainPad, 0.0, tanDeg, t.was.left, t.was.readOnlyL,
                     t.now.left, t.now.readOnlyL, t.p0.chamferSketchCache[0], t.cache[0], t.leftBase, t.left)
    && Confined(t.padded, t.leftDone, frame, {})
    && RightDone(t.leftDone, t.after, frame, t.sketch, t.leftBase, t.padLength, tanDeg, t.was.right, t.was.readOnlyR,
                       t.now.right, t.now.readOnlyR, t.p0.sketchR, t.p0.sketchLabelL, t.sketchR, t.p0.chamferSketchCache[1], t.cache[1],
                       t.r, t.right)
    && Confined(t.leftDone, t.after, frame, if t.was.right.chamferAngle > 0.0 then RecordedRight(t.p0.sketchR) else {}))
      ==> EndsBuilt(frame, tanDeg, t)
  {
    var spared := if t.was.right.chamferAngle > 0.0 then RecordedRight(t.p0.sketchR) else {};
    if MainPadded(t.before, t.padded, frame, t.sketch, t.edgeName, t.padLength, t.mainPad)
       && Confined(t.padded, t.leftDone, frame, {}) && Confined(t.leftDone, t.after, frame, spared) {
      ConfinedTrans(t.before, t.padded, t.leftDone, frame, {}, {});
      ConfinedTrans(t.before, t.leftDone, t.after, frame, {} + {}, spared);
      assert {} + {} + spared == spared;
    }
  }

  /** What a run of the building steps that ends in a feature leaves: both ends keep
      their angles and directions; a chamfered end is read-only, the left one
      extended as the width of the local sketch asks; a cleaned end has no memo; and
      the feature is the right end's pocket, else the left end's, else the main pad. */
  ghost predicate PieceEnds(frame: string, tanDeg: real -> real, t: BuildTrace)
    requires t.r.Ok? && t.sketch in t.before
  {
    && |t.cache| == 2
    && t.now.left.chamferAngle == t.was.left.chamferAngle && t.now.left.chamferDirection == t.was.left.chamferDirection
    && t.now.right.chamferAngle == t.was.right.chamferAngle && t.now.right.chamferDirection == t.was.right.chamferDirection
    && (t.was.left.chamferAngle > 0.0 ==>
          && t.now.readOnlyL
          && t.now.left.extendedLength
             == ExtendedLength(tanDeg, t.was.left.chamferAngle, ChamferWidth(t.before[t.sketch].bbox, t.was.left.chamferDirection)))
    && (t.was.left.chamferAngle <= 0.0 ==> t.cache[0] == None)
    && (t.was.right.chamferAngle > 0.0 ==> t.now.readOnlyR && t.now.right.extendedLength >= 0.0)
    && (t.was.right.chamferAngle <= 0.0 ==> t.cache[1] == None)
    && StartsWith(t.r.value,
         if t.was.right.chamferAngle > 0.0 then PocketName(EndName(frame, true))
         else if t.was.left.chamferAngle > 0.0 then PocketName(EndName(frame, false))
         else PadName(t.edgeName))
  }

  /** A run of the building steps that ends in a feature leaves what `PieceEnds` says. */
  lemma EndsBuiltPiece(frame: string, tanDeg: real -> real, t: BuildTrace)
    requires forall u | u == t :: EndsBuilt(frame, tanDeg, u)
    requires t.r.Ok? && t.sketch in t.before
    ensures PieceEnds(frame, tanDeg, t)
  {
    assert EndsBuilt(frame, tanDeg, t);
  }

  /** The removals of `clean_chamfer`: the pocket, the cutting sketch and the
      extension pad of the end called `name`, each when the frame holds it; `reset`
      tells whether the extension pad was there. */
  method RemoveParts(doc: Document, body: string, name: string) returns (reset: bool)
    requires FrameHeld(doc.objects, body)
    modifies doc
    ensures reset == Holds(old(doc.objects), Some(body), ChamferParts(name)[2])
    ensures doc.objects == old(doc.objects) - HeldParts(old(doc.objects), body, name)
    ensures forall n :: n in ChamferParts(name) ==> !Holds(doc.objects, Some(body), n)
    ensures FrameHeld(doc.objects, body)
    ensures Confined(old(doc.objects), doc.objects, body, {})
  {
    var parts := ChamferParts(name);
    ghost var start := doc.objects;
    if Holds(doc.objects, Some(body), parts[0]) {
      var removed := doc.RemoveObject(parts[0]);
    }
    ghost var first := doc.objects;
    assert first == RemoveIfHeld(start, body, parts[0]);
    if Holds(doc.objects, Some(body), parts[1]) {
      var removed := doc.RemoveObject(parts[1]);
    }
    ghost var second := doc.objects;
    assert second == RemoveIfHeld(first, body, parts[1]);
    RemovePartsAll(start, body, name);
    reset := Holds(doc.objects, Some(body), parts[2]);
    if reset {
      var removed := doc.RemoveObject(parts[2]);
    }
    assert doc.objects == RemoveIfHeld(second, body, parts[2]);
  }

  /** The pocket step of `create_chamfer`: the pocket `Chamfer_<name>` is fetched or
      created and, when its base feature or profile differ, set to cut the cutting
      sketch through all, both ways, out of the extension pad; both are hidden. */
  method ConfigurePocket(doc: Document, body: string, name: string, extension: string, cutting: string)
    returns (pocket: string)
    requires FrameHeld(doc.objects, body) && Holds(doc.objects, Some(body), extension)
    modifies doc
    ensures Holds(doc.objects, Some(body), pocket) && StartsWith(pocket, PocketName(name))
    ensures FetchedAs(old(doc.objects), body, PocketName(name), pocket)
    ensures doc.objects[pocket] == PocketAfter(Found(old(doc.objects), body, PocketName(name), pocket, "PartDesign::Pocket"), extension, cutting)
    ensures doc.objects[pocket].inputs.baseFeature == Some(extension) && doc.objects[pocket].inputs.profile == Some(cutting)
    ensures extension in doc.objects && !doc.objects[pocket].visible && !doc.objects[extension].visible
    ensures extension != pocket ==> doc.objects[extension] == old(doc.objects[extension]).(visible := false)
    ensures FrameHeld(doc.objects, body)
    ensures Untouched(old(doc.objects), doc.objects, body, {pocket, extension}) && Members(old(doc.objects), doc.objects, body, {pocket})
  {
    ghost var start := doc.objects;
    pocket := GetOrCreate(doc, Some(body), PocketName(name), "PartDesign::Pocket");
    ObtainKeeps(start, body, PocketName(name), "PartDesign::Pocket", {pocket, extension});
    ObtainFound(start, body, PocketName(name), "PartDesign::Pocket");
    ghost var created := doc.objects;
    SetPocketInputs(doc, body, pocket, extension, cutting);
    UntouchedTrans(start, created, doc.objects, body, {pocket, extension}, {pocket, extension});
    MembersTrans(start, created, doc.objects, body, {pocket}, {});
    assert {pocket, extension} + {pocket, extension} == {pocket, extension} && {pocket} + {} == {pocket};
  }

  /** The updates of the pocket step once the pocket is fetched or created: the pocket
      set to cut `cutting` through all, both ways, out of `extension` only when either
      differs; then the extension and the pocket hidden. */
  method SetPocketInputs(doc: Document, body: string, pocket: string, extension: string, cutting: string)
    requires FrameHeld(doc.objects, body) && Holds(doc.objects, Some(body), pocket) && Holds(doc.objects, Some(body), extension)
    modifies doc
    ensures Holds(doc.objects, Some(body), pocket)
    ensures var p := old(doc.objects[pocket]);
      doc.objects[pocket] == (if p.inputs.baseFeature != Some(extension) || p.inputs.profile != Some(cutting) then
        p.(inputs := p.inputs.(baseFeature := Some(extension), profile := Some(cutting)),
           throughAllMidplane := true, recomputes := p.recomputes + 1)
      else p).(visible := false)
    ensures extension in doc.objects && (extension != pocket ==> doc.objects[extension] == old(doc.objects[extension]).(visible := false))
    ensures Untouched(old(doc.objects), doc.objects, body, {pocket, extension}) && Members(old(doc.objects), doc.objects, body, {})
    ensures FrameHeld(doc.objects, body)
  {
    var p := doc.objects[pocket];
    if p.inputs.baseFeature != Some(extension) || p.inputs.profile != Some(cutting) {
      p := p.(inputs := p.inputs.(baseFeature := Some(extension), profile := Some(cutting)),
              throughAllMidplane := true, recomputes := p.recomputes + 1);
    }
    // Hiding the extension and then the pocket: when they are one object, the
    // pocket's record is the one that remains.
    var m := doc.objects[extension := doc.objects[extension].(visible := false)][pocket := p.(visible := false)];
    RewriteOnly(doc.objects, m, body, {pocket, extension});
    doc.objects := m;
  }

  /** `CreateProfileFrameBody`: the frame called `name` (with `':'` replaced by `_`)
      in `container` (the document itself when `None`) is reused when the container
      holds it, and otherwise added as a new `PartDesign::FeatureAdditivePython` with
      a fresh proxy; then it takes `sketch` as its profile and `edgeName` as its edge.
      `frames` holds the proxied frame features by name; an object under the name
      without a proxy is where the source raises. */
  method CreateProfileFrameBody(doc: Document, container: Option<string>, sketchName: string, sketch: DocObject,
                                edgeName: string, name: string, frames: map<string, FrameFeature>)
    returns (r: Result<FrameFeature, FrameError>)
    requires container.Some? ==> container.value in doc.objects
    requires forall k :: k in frames ==> frames[k].name == k && frames[k].proxy != null
    modifies doc
    modifies (var n := Replace(name, ':', '_'); if n in frames then {frames[n]} else {})`sketch
    modifies (var n := Replace(name, ':', '_'); if n in frames then {frames[n]} else {})`edgeName
    modifies (var n := Replace(name, ':', '_'); if n in frames then {frames[n].proxy} else {})`sketchLabelL
    ensures var n := Replace(name, ':', '_');
      Holds(old(doc.objects), container, n) && n !in frames ==> r == Err(NotAFrame(n)) && doc.objects == old(doc.objects)
    ensures var n := Replace(name, ':', '_');
      Holds(old(doc.objects), container, n) && n in frames && r.Ok? ==> r.value == frames[n]
    ensures var n := Replace(name, ':', '_');
      !Holds(old(doc.objects), container, n) ==>
        && r.Ok? && fresh(r.value) && fresh(r.value.proxy)
        && r.value.name == UniqueName(old(doc.objects).Keys, n)
        && AddedWithChild(old(doc.objects), doc.objects, container, r.value.name, r.value.sketch)
        && r.value.sketch == UniqueName(old(doc.objects).Keys + {r.value.name}, sketchName)
        && r.value.sketch in doc.objects && doc.objects[r.value.sketch] == sketch
        && r.value.offsetX == 0.0 && r.value.offsetY == 0.0 && r.value.angle == 0.0 && r.value.length == 0.0
        && r.value.left == EndSettings(0.0, 1, 0.0) && r.value.right == EndSettings(0.0, 1, 0.0) && r.value.shape == None
        && r.value.proxy.Fields() == ProxyFields(0.0, 0.0, 0.0, 0.0, [None, None], Some(sketch.objectLabel), None)
    ensures var n := Replace(name, ':', '_');
      Holds(old(doc.objects), container, n) && n in frames && Some(sketch.objectLabel) == old(frames[n].proxy.sketchLabelL) ==>
        r == Ok(frames[n]) && doc.objects == old(doc.objects) && frames[n].sketch == old(frames[n].sketch)
    ensures var n := Replace(name, ':', '_');
      Holds(old(doc.objects), container, n) && n in frames && Some(sketch.objectLabel) != old(frames[n].proxy.sketchLabelL)
      && old(frames[n].proxy.sketchLabelL).Some? && old(frames[n].sketch) !in old(doc.objects) ==>
        r == Err(MissingObject(old(frames[n].sketch))) && doc.objects == old(doc.objects)
    ensures var n := Replace(name, ':', '_');
      Holds(old(doc.objects), container, n) && n in frames && Some(sketch.objectLabel) != old(frames[n].proxy.sketchLabelL)
      && (old(frames[n].proxy.sketchLabelL).None? || old(frames[n].sketch) in old(doc.objects)) ==>
        var removed := if old(frames[n].proxy.sketchLabelL).Some? then old(doc.objects) - {old(frames[n].sketch)} else old(doc.objects);
        if n in removed then
          r == Ok(frames[n]) && (r.value.sketch, doc.objects) == CopyOutcome(removed, sketchName, sketch, n)
        else
          r.Err? && doc.objects == removed
    ensures var n := Replace(name, ':', '_');
      Holds(old(doc.objects), container, n) && n in frames ==>
        forall k :: k in old(doc.objects) && k != n && k != old(frames[n].sketch) ==> k in doc.objects && doc.objects[k] == old(doc.objects[k])
    ensures var n := Replace(name, ':', '_'); n in frames ==> OnlyLinksChanged(frames[n])
    ensures r.Ok? ==>
      && StartsWith(r.value.name, Replace(name, ':', '_'))
      && r.value.edgeName == edgeName && r.value.proxy != null
      && r.value.proxy.sketchLabelL == Some(sketch.objectLabel)
  {
    var n := Replace(name, ':', '_');
    if !Holds(doc.objects, container, n) {
      var obj := AddFrame(doc, container, n, sketchName, sketch, edgeName);
      return Ok(obj);
    }
    if n !in frames {
      return Err(NotAFrame(n));
    }
    var obj := frames[n];
    var ok := ReuseFrame(doc, obj, sketchName, sketch, edgeName);
    if !ok {
      return Err(MissingObject(obj.sketch));
    }
    r := Ok(obj);
  }

  /** The frame's local sketch, its edge name and the label recorded by its proxy:
      all that reusing a frame may change. Everything else of the frame and its proxy
      stays as it was. */
  twostate predicate OnlyLinksChanged(f: FrameFeature)
    reads f, f.proxy
  {
    && f.proxy == old(f.proxy) && f.proxy != null
    && f.proxy.Fields() == old(f.proxy.Fields()).(sketchLabelL := f.proxy.sketchLabelL)
    && f.offsetX == old(f.offsetX) && f.offsetY == old(f.offsetY) && f.angle == old(f.angle) && f.length == old(f.length)
    && f.Ends() == old(f.Ends())
    && f.attachmentOffset == old(f.attachmentOffset) && f.attachmentSupport == old(f.attachmentSupport)
    && f.normalToEdge == old(f.normalToEdge) && f.shape == old(f.shape) && f.recomputes == old(f.recomputes)
  }

  /** A held frame reused by `CreateProfileFrameBody`: `setSketch` on its proxy and,
      when that succeeds, the new edge name; nothing else of the frame or its proxy
      changes. */
  method ReuseFrame(doc: Document, obj: FrameFeature, sketchName: string, sketch: DocObject, edgeName: string)
    returns (ok: bool)
    requires obj.proxy != null
    modifies doc, obj`sketch, obj`edgeName, obj.proxy`sketchLabelL
    ensures OnlyLinksChanged(obj)
    ensures ok ==> obj.edgeName == edgeName
    ensures !ok ==> obj.edgeName == old(obj.edgeName)
    ensures Some(sketch.objectLabel) == old(obj.proxy.sketchLabelL) ==>
      ok && doc.objects == old(doc.objects) && obj.sketch == old(obj.sketch) && obj.proxy.sketchLabelL == old(obj.proxy.sketchLabelL)
    ensures Some(sketch.objectLabel) != old(obj.proxy.sketchLabelL) && old(obj.proxy.sketchLabelL).Some? && old(obj.sketch) !in old(doc.objects) ==>
      !ok && doc.objects == old(doc.objects) && obj.sketch == old(obj.sketch)
    ensures Some(sketch.objectLabel) != old(obj.proxy.sketchLabelL) && (old(obj.proxy.sketchLabelL).None? || old(obj.sketch) in old(doc.objects)) ==>
      var removed := if old(obj.proxy.sketchLabelL).Some? then old(doc.objects) - {old(obj.sketch)} else old(doc.objects);
      if obj.name in removed then
        ok && obj.proxy.sketchLabelL == Some(sketch.objectLabel) && (obj.sketch, doc.objects) == CopyOutcome(removed, sketchName, sketch, obj.name)
      else
        !ok && doc.objects == removed && obj.sketch == old(obj.sketch)
    ensures forall k :: k in old(doc.objects) && k != obj.name && k != old(obj.sketch) ==> k in doc.objects && doc.objects[k] == old(doc.objects[k])
  {
    ok := obj.proxy.SetSketch(doc, obj, sketchName, sketch);
    if ok {
      obj.edgeName := edgeName;
    }
  }

  /** The new frame of `CreateProfileFrameBody`: a blank feature under a free name
      starting with `n`, added to `container`, with a fresh proxy and its defaults,
      a copy of `sketch` as its local sketch and `edgeName` as its edge. (The document
      clause is stated through `m` so that callers unfold it only where they use it.) */
  method AddFrame(doc: Document, container: Option<string>, n: string, sketchName: string, sketch: DocObject, edgeName: string)
    returns (obj: FrameFeature)
    requires container.Some? ==> container.value in doc.objects
    modifies doc
    ensures fresh(obj) && fresh(obj.proxy) && obj.proxy != null
    ensures obj.name == UniqueName(old(doc.objects).Keys, n) && obj.edgeName == edgeName
    ensures forall m | m == doc.objects :: AddedWithChild(old(doc.objects), m, container, obj.name, obj.sketch)
    ensures obj.sketch == UniqueName(old(doc.objects).Keys + {obj.name}, sketchName)
    ensures obj.sketch in doc.objects && doc.objects[obj.sketch] == sketch
    ensures obj.offsetX == 0.0 && obj.offsetY == 0.0 && obj.angle == 0.0 && obj.length == 0.0
    ensures obj.left == EndSettings(0.0, 1, 0.0) && obj.right == EndSettings(0.0, 1, 0.0) && obj.shape == None
    ensures obj.proxy.Fields() == ProxyFields(0.0, 0.0, 0.0, 0.0, [None, None], Some(sketch.objectLabel), None)
  {
    obj := NewFrame(doc, container, n);
    FirstSketch(doc, obj, obj.proxy, sketchName, sketch, old(doc.objects), container, Blank(obj.name, "PartDesign::FeatureAdditivePython"));
    obj.edgeName := edgeName;
  }

  /** `setSketch` on a frame just added to `container`, which has no sketch yet: the
      copy is made under the frame and nothing else changes. */
  method FirstSketch(doc: Document, obj: FrameFeature, proxy: ProfileFrameObject?, sketchName: string, sketch: DocObject,
                     ghost before: map<string, DocObject>, ghost container: Option<string>, ghost o: DocObject)
    requires container.Some? ==> container.value in before
    requires obj.name !in before && doc.objects == AddTo(before, container, obj.name, o)
    requires o.group == [] && proxy != null && proxy == obj.proxy && proxy.sketchLabelL == None
    modifies doc, obj`sketch, proxy`sketchLabelL
    ensures proxy.sketchLabelL == Some(sketch.objectLabel)
    ensures forall m | m == doc.objects :: AddedWithChild(before, m, container, obj.name, obj.sketch)
    ensures obj.sketch == UniqueName(before.Keys + {obj.name}, sketchName)
    ensures obj.sketch in doc.objects && doc.objects[obj.sketch] == sketch
  {
    var ok := proxy.SetSketch(doc, obj, sketchName, sketch);
    AddedThenFilled(before, container, obj.name, o, obj.sketch, doc.objects);
  }

  /** A blank `PartDesign::FeatureAdditivePython` under a free name starting with
      `n`, added to `container`, with a fresh proxy and its defaults. */
  method NewFrame(doc: Document, container: Option<string>, n: string) returns (obj: FrameFeature)
    requires container.Some? ==> container.value in doc.objects
    modifies doc
    ensures fresh(obj) && fresh(obj.proxy) && obj.proxy != null
    ensures obj.name == UniqueName(old(doc.objects).Keys, n)
    ensures doc.objects == AddTo(old(doc.objects), container, obj.name, Blank(obj.name, "PartDesign::FeatureAdditivePython"))
    ensures obj.sketch == "" && obj.edgeName == "" && obj.offsetX == 0.0 && obj.offsetY == 0.0 && obj.angle == 0.0 && obj.length == 0.0
    ensures obj.left == EndSettings(0.0, 1, 0.0) && obj.right == EndSettings(0.0, 1, 0.0) && obj.shape == None
    ensures obj.proxy.Fields() == ProxyFields(0.0, 0.0, 0.0, 0.0, [None, None], None, None)
  {
    var unique := UniqueName(doc.objects.Keys, n);
    doc.objects := AddTo(doc.objects, container, unique, Blank(unique, "PartDesign::FeatureAdditivePython"));
    obj := new FrameFeature(unique);
    var proxy := new ProfileFrameObject(obj);
  }
}
