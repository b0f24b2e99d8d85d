/** The host CAD document, reduced to the records the add-in reads and writes.

    FreeCAD keeps every object of a document under a unique `Name`; the add-in reads
    and sets a handful of their properties, and the solid kernel behind `recompute()`
    is not modelled: a recompute is counted, nothing more. One record type covers the
    objects the add-in touches (sketches, pads, pockets, the frame bodies themselves);
    each kind uses the fields that belong to it. */
module Doc {
  import opened Wrappers
  import opened Text

  /** A sub-shape as `getSubObject` or `SubObjects` returns it: an edge or something
      else; every `Part.Shape` has a `Length`. */
  datatype Shape = Edge(length: real) | NonEdge(length: real)

  /** `Shape.BoundBox` of a sketch, in the sketch's own XY plane. */
  datatype BoundBox = BoundBox(xMin: real, xMax: real, yMin: real, yMax: real)

  datatype Point = Point(x: real, y: real)

  /** A `Part.LineSegment` added to a sketch. */
  datatype Segment = Segment(start: Point, end: Point)

  /** `App.Rotation(App.Vector(0, 0, 1), angle)` or `App.Rotation(yaw, pitch, roll)`. */
  datatype Rotation = AboutZ(angle: real) | YawPitchRoll(yaw: real, pitch: real, roll: real)

  /** `AttachmentOffset`: a base vector and a rotation. */
  datatype Placement = Placement(x: real, y: real, z: real, rotation: Rotation)

  const Identity := Placement(0.0, 0.0, 0.0, AboutZ(0.0))

  /** The four inputs of a PartDesign Pad or Pocket the add-in compares and sets. */
  datatype FeatureInputs = FeatureInputs(profile: Option<string>, length: real, reversed: bool, baseFeature: Option<string>)

  const NoInputs := FeatureInputs(None, 0.0, false, None)

  datatype DocObject = DocObject(
    objectLabel: string,           // `Label`
    typeId: string,
    group: seq<string>,             // `Group` of a container, in order (its `OutList`)
    props: map<string, string>,     // string properties added at run time
    subShapes: map<string, Shape>,  // what `getSubObject(sub)` resolves to
    edgeCount: nat,                 // `len(Shape.Edges)`
    bbox: BoundBox,                 // `Shape.BoundBox`
    inputs: FeatureInputs,          // Pad / Pocket `Profile`, `Length`, `Reversed`, `BaseFeature`
    throughAllMidplane: bool,       // Pocket `Type = 1`, `Midplane = 1`, `AlongSketchNormal = 1`
    geometry: seq<Segment>,         // sketch geometry
    constraints: nat,               // number of sketch constraints
    support: Option<string>,        // `AttachmentSupport`
    objectXY: bool,                 // `MapMode == 'ObjectXY'`
    offset: Placement,              // `AttachmentOffset`
    visible: bool,
    recomputes: nat)

  /** A freshly created object: FreeCAD sets its `Label` to its `Name`. */
  function Blank(name: string, typeId: string): (o: DocObject)
    ensures o.objectLabel == name && o.typeId == typeId && o.group == [] && o.geometry == []
  {
    DocObject(name, typeId, [], map[], map[], 0, BoundBox(0.0, 0.0, 0.0, 0.0), NoInputs, false,
              [], 0, None, false, Identity, true, 0)
  }

  /** What the GUI reports for one selected object (`Gui.Selection.getSelectionEx()`). */
  datatype SelectionObject = SelectionObject(
    objectName: string,
    typeId: string,
    subElementNames: seq<string>,
    subObjects: seq<Shape>)

  /** `getObject(name)` on the document (`container == None`) or on a group object:
      the name is taken, and for a group it is one of the group's members. */
  predicate Holds(objects: map<string, DocObject>, container: Option<string>, name: string) {
    name in objects &&
    (container.Some? ==> container.value in objects && name in objects[container.value].group)
  }

  /** A new object `n` added to the document and, if `container` is a group, appended
      to that group. */
  function AddTo(objects: map<string, DocObject>, container: Option<string>, n: string, o: DocObject): (r: map<string, DocObject>)
    requires container.Some? ==> container.value in objects
    ensures r.Keys == objects.Keys + {n} && r[n] == o
  {
    if container.Some? then
      var c := container.value;
      objects[c := objects[c].(group := objects[c].group + [n])][n := o]
    else
      objects[n := o]
  }

  /** Rewriting the record just added is adding the rewritten record. */
  lemma AddToReplace(objects: map<string, DocObject>, container: Option<string>, n: string, o: DocObject, o': DocObject)
    requires container.Some? ==> container.value in objects
    requires container != Some(n)
    ensures AddTo(objects, container, n, o)[n := o'] == AddTo(objects, container, n, o')
  {
  }

  /** `after` is `before` with `n` added to `container` and `child` added under `n`;
      every other object is unchanged and the container changes only in its group. */
  ghost predicate AddedWithChild(before: map<string, DocObject>, after: map<string, DocObject>,
                                 container: Option<string>, n: string, child: string) {
    && Holds(after, container, n) && Holds(after, Some(n), child)
    && after.Keys == before.Keys + {n, child}
    && (forall k :: k in before && Some(k) != container ==> k in after && after[k] == before[k])
    && (container.Some? ==>
          container.value in before && after[container.value] == before[container.value].(group := after[container.value].group))
  }

  /** Adding `n` to `container` and then giving `n` a child `child`, touching nothing
      else, is `AddedWithChild`. */
  lemma AddedThenFilled(objects: map<string, DocObject>, container: Option<string>, n: string, o: DocObject,
                        child: string, after: map<string, DocObject>)
    requires container.Some? ==> container.value in objects
    requires n !in objects && Holds(after, Some(n), child)
    requires after.Keys <= AddTo(objects, container, n, o).Keys + {child}
    requires forall k :: k in AddTo(objects, container, n, o) && k != n ==> k in after && after[k] == AddTo(objects, container, n, o)[k]
    ensures AddedWithChild(objects, after, container, n, child)
  {
    var added := AddTo(objects, container, n, o);
    forall k | k in objects && Some(k) != container
      ensures after[k] == objects[k]
    {
      assert k != n && after[k] == added[k];
    }
    if container.Some? {
      var c := container.value;
      assert c != n && after[c] == added[c];
      assert n in added[c].group;
    }
  }

  /** A bound on the length of every name in use. */
  ghost function MaxLen(names: set<string>): (m: nat)
    ensures forall n :: n in names ==> |n| <= m
  {
    if names == {} then 0
    else
      var n :| n in names;
      var rest := MaxLen(names - {n});
      if |n| < rest then rest else |n|
  }

  /** The model's stand-in for the document's unique-name rule: `base` itself when it
      is free, otherwise `base` followed by enough `0` digits to be free. The host's own
      rule (`getUniqueObjectName`) is not modelled; all the model relies on is that the
      name is free and starts with `base`. */
  function UniqueName(names: set<string>, base: string): (n: string)
    ensures n !in names && StartsWith(n, base)
    ensures base !in names ==> n == base
    decreases MaxLen(names) + 1 - |base|
  {
    if base !in names then base
    else
      var n := UniqueName(names, base + "0");
      assert StartsWith(n, base) by {
        assert n[..|base|] == (base + "0")[..|base|];
      }
      n
  }

  /** The document: every object under its unique `Name`. */
  class Document {
    var objects: map<string, DocObject>

    constructor (objects: map<string, DocObject>)
      ensures this.objects == objects
    {
      this.objects := objects;
    }

    /** `App.ActiveDocument.removeObject(name)`: FreeCAD raises when no object has
        that name, which the model reports as `ok == false`. */
    method RemoveObject(name: string) returns (ok: bool)
      modifies this
      ensures ok == (name in old(objects))
      ensures objects == old(objects) - {name}
    {
      ok := name in objects;
      objects := objects - {name};
    }
  }
}
