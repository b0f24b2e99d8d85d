/** The selection and document helpers of `commands/utils.py`.

    The three selection helpers only read: `IsAllWires` decides whether a selection
    holds nothing but edges, `GetAllWireNames` turns a selection into
    `"Object:EdgeN"` strings, and `GetSubEdges` resolves such strings against the
    document, expanding a bare object name into all of its edges. The three document
    helpers change the document: `GetOrCreate`, `CopyObj` and `GetStored`. */
module Utils {
  import opened Wrappers
  import opened Text
  import opened Doc

  /** A sketch or a Draft 2D object: the two kinds of object the add-in accepts as a
      whole wire. */
  predicate IsSketchType(typeId: string) {
    typeId == "Sketcher::SketchObject" || typeId == "Part::Part2DObjectPython"
  }

  // ---------------------------------------------------------------------------
  // IsAllWires

  /** Every sub-object picked on an object that is not a sketch is an edge. */
  predicate AllWires(objects: seq<SelectionObject>) {
    forall i, j :: 0 <= i < |objects| && !IsSketchType(objects[i].typeId) && 0 <= j < |objects[i].subObjects| ==>
      objects[i].subObjects[j].Edge?
  }

  method IsAllWires(objects: seq<SelectionObject>) returns (r: bool)
    ensures r == AllWires(objects)
  {
    for i := 0 to |objects|
      invariant forall i', j :: 0 <= i' < i && !IsSketchType(objects[i'].typeId) && 0 <= j < |objects[i'].subObjects| ==>
        objects[i'].subObjects[j].Edge?
    {
      if IsSketchType(objects[i].typeId) {
        continue;
      }
      var subObjects := objects[i].subObjects;
      for j := 0 to |subObjects|
        invariant forall j' :: 0 <= j' < j ==> subObjects[j'].Edge?
      {
        if !subObjects[j].Edge? {
          return false;
        }
      }
    }
    return true;
  }

  // ---------------------------------------------------------------------------
  // GetAllWireNames

  /** `f'{name}:{sub}'`: a sub-element qualified by its object's name. */
  function Qualified(name: string, sub: string): string {
    name + ":" + sub
  }

  /** The sub-element names that contain `"Edge"`, qualified by `name`, in order. */
  function EdgeSubNames(name: string, subs: seq<string>): seq<string> {
    if subs == [] then []
    else
      var last := subs[|subs| - 1];
      EdgeSubNames(name, subs[..|subs| - 1]) + (if Contains(last, "Edge") then [Qualified(name, last)] else [])
  }

  /** What one selected object contributes: its bare name when it is a sketch or Draft
      object picked as a whole, otherwise its sub-element names that mention an edge. */
  function WiresOf(o: SelectionObject): seq<string> {
    if IsSketchType(o.typeId) && o.subElementNames == [] then [o.objectName]
    else EdgeSubNames(o.objectName, o.subElementNames)
  }

  /** The contributions of the selected objects, in selection order. */
  function WireNames(objects: seq<SelectionObject>): seq<string> {
    if objects == [] then []
    else WireNames(objects[..|objects| - 1]) + WiresOf(objects[|objects| - 1])
  }

  method GetAllWireNames(objects: seq<SelectionObject>) returns (wires: seq<string>)
    ensures wires == WireNames(objects)
  {
    wires := [];
    for i := 0 to |objects|
      invariant wires == WireNames(objects[..i])
    {
      var o := objects[i];
      assert objects[..i + 1][..i] == objects[..i];
      if IsSketchType(o.typeId) && o.subElementNames == [] {
        wires := wires + [o.objectName];
        continue;
      }
      ghost var before := wires;
      var subs := o.subElementNames;
      for j := 0 to |subs|
        invariant wires == before + EdgeSubNames(o.objectName, subs[..j])
      {
        assert subs[..j + 1][..j] == subs[..j];
        if Contains(subs[j], "Edge") {
          wires := wires + [Qualified(o.objectName, subs[j])];
        }
      }
      assert subs[..|subs|] == subs;
    }
    assert objects[..|objects|] == objects;
  }

  /** A qualified name comes from a sub-element that mentions `"Edge"`, and every such
      sub-element gives one. */
  lemma {:induction false} EdgeSubNamesMember(name: string, subs: seq<string>, x: string)
    ensures x in EdgeSubNames(name, subs) <==>
      exists j :: 0 <= j < |subs| && Contains(subs[j], "Edge") && x == Qualified(name, subs[j])
  {
    if subs != [] {
      var init := subs[..|subs| - 1];
      EdgeSubNamesMember(name, init, x);
      if exists j :: 0 <= j < |init| && Contains(init[j], "Edge") && x == Qualified(name, init[j]) {
        var j :| 0 <= j < |init| && Contains(init[j], "Edge") && x == Qualified(name, init[j]);
        assert subs[j] == init[j];
      }
      if j :| 0 <= j < |subs| && Contains(subs[j], "Edge") && x == Qualified(name, subs[j]) {
        if j < |init| {
          assert init[j] == subs[j];
        }
      }
    }
  }

  /** A wire name comes from one of the selected objects, and every contribution of
      every selected object is in the result. */
  lemma {:induction false} WireNamesMember(objects: seq<SelectionObject>, x: string)
    ensures x in WireNames(objects) <==> exists i :: 0 <= i < |objects| && x in WiresOf(objects[i])
  {
    if objects != [] {
      var init := objects[..|objects| - 1];
      WireNamesMember(init, x);
      if exists i :: 0 <= i < |init| && x in WiresOf(init[i]) {
        var i :| 0 <= i < |init| && x in WiresOf(init[i]);
        assert objects[i] == init[i];
      }
      if i :| 0 <= i < |objects| && x in WiresOf(objects[i]) {
        if i < |init| {
          assert init[i] == objects[i];
        }
      }
    }
  }

  // ---------------------------------------------------------------------------
  // GetSubEdges

  /** The Python exceptions `GetSubEdges` can raise: unpacking `n.split(':')` into two
      names fails (`ValueError`), or `getObject` finds nothing and the next attribute
      access fails (`AttributeError`). */
  datatype LookupError = TooManyParts(name: string) | NoSuchObject(name: string)

  /** `f'{n}:Edge{k}'`. */
  function EdgeName(n: string, k: nat): string {
    n + ":Edge" + NatToString(k)
  }

  /** The names of the edges 1 to k of object n, in order. */
  function EdgeNames(n: string, k: nat): (r: seq<string>)
    ensures |r| == k
  {
    if k == 0 then [] else EdgeNames(n, k - 1) + [EdgeName(n, k)]
  }

  /** What one input name becomes: a qualified name is kept when it resolves to an
      edge and dropped otherwise; a bare name is expanded into all of its edges. */
  function Expand(objects: map<string, DocObject>, n: string): Result<seq<string>, LookupError> {
    if ':' in n then
      var parts := Split(n, ':');
      if |parts| != 2 then Err(TooManyParts(n))
      else if parts[0] !in objects then Err(NoSuchObject(parts[0]))
      else
        var subShapes := objects[parts[0]].subShapes;
        if parts[1] in subShapes && subShapes[parts[1]].Edge? then Ok([n]) else Ok([])
    else if n !in objects then Err(NoSuchObject(n))
    else Ok(EdgeNames(n, objects[n].edgeCount))
  }

  /** The expansions of all names in order, or the error of the first name that fails. */
  function SubEdges(objects: map<string, DocObject>, names: seq<string>): Result<seq<string>, LookupError> {
    if names == [] then Ok([])
    else
      match SubEdges(objects, names[..|names| - 1])
      case Err(e) => Err(e)
      case Ok(done) =>
        match Expand(objects, names[|names| - 1])
        case Err(e) => Err(e)
        case Ok(more) => Ok(done + more)
  }

  /** Once a prefix of the names fails, the whole list fails with the same error. */
  lemma {:induction false} SubEdgesFailurePersists(objects: map<string, DocObject>, names: seq<string>, i: nat)
    requires i <= |names| && SubEdges(objects, names[..i]).Err?
    ensures SubEdges(objects, names) == SubEdges(objects, names[..i])
    decreases |names| - i
  {
    if i < |names| {
      assert names[..i + 1][..i] == names[..i];
      SubEdgesFailurePersists(objects, names, i + 1);
    } else {
      assert names[..i] == names;
    }
  }

  method GetSubEdges(doc: Document, names: seq<string>) returns (r: Result<seq<string>, LookupError>)
    ensures r == SubEdges(doc.objects, names)
  {
    var found: seq<string> := [];
    for i := 0 to |names|
      invariant SubEdges(doc.objects, names[..i]) == Ok(found)
    {
      var n := names[i];
      assert names[..i + 1][..i] == names[..i];
      if ':' in n {
        var parts := Split(n, ':');
        if |parts| != 2 {
          SubEdgesFailurePersists(doc.objects, names, i + 1);
          return Err(TooManyParts(n));
        }
        var parent, sub := parts[0], parts[1];
        if parent !in doc.objects {
          SubEdgesFailurePersists(doc.objects, names, i + 1);
          return Err(NoSuchObject(parent));
        }
        var subShapes := doc.objects[parent].subShapes;
        if sub in subShapes && subShapes[sub].Edge? {
          found := found + [n];
        } else {
          assert found + [] == found;
        }
      } else {
        if n !in doc.objects {
          SubEdgesFailurePersists(doc.objects, names, i + 1);
          return Err(NoSuchObject(n));
        }
        ghost var before := found;
        for k := 0 to doc.objects[n].edgeCount
          invariant found == before + EdgeNames(n, k)
        {
          found := found + [EdgeName(n, k + 1)];
        }
      }
    }
    assert names[..|names|] == names;
    return Ok(found);
  }

  /** The expansion of a bare name lists edges 1 to k, the i-th entry naming edge i + 1. */
  lemma {:induction false} EdgeNamesAt(n: string, k: nat, i: nat)
    requires i < k
    ensures EdgeNames(n, k)[i] == EdgeName(n, i + 1)
  {
    if i < k - 1 {
      EdgeNamesAt(n, k - 1, i);
    }
  }

  /** The expansion of a bare name never lists the same edge twice. */
  lemma EdgeNamesDistinct(n: string, k: nat, i: nat, j: nat)
    requires i < j < k
    ensures EdgeNames(n, k)[i] != EdgeNames(n, k)[j]
  {
    EdgeNamesAt(n, k, i);
    EdgeNamesAt(n, k, j);
    var prefix := n + ":Edge";
    if EdgeName(n, i + 1) == EdgeName(n, j + 1) {
      assert EdgeName(n, i + 1)[|prefix|..] == NatToString(i + 1);
      assert EdgeName(n, j + 1)[|prefix|..] == NatToString(j + 1);
      NatToStringInjective(i + 1, j + 1);
    }
  }

  /** `GetSubEdges` succeeds exactly when every name on its own does: a qualified name
      has one `':'` and names an existing object, a bare name names an existing object. */
  lemma {:induction false} SubEdgesSucceeds(objects: map<string, DocObject>, names: seq<string>)
    ensures SubEdges(objects, names).Ok? <==> forall i :: 0 <= i < |names| ==> Expand(objects, names[i]).Ok?
  {
    if names != [] {
      var init := names[..|names| - 1];
      SubEdgesSucceeds(objects, init);
      assert forall i :: 0 <= i < |init| ==> init[i] == names[i];
    }
  }

  /** A name with more than one `':'` cannot be unpacked into object and sub-element. */
  lemma ExpandTooManyParts(objects: map<string, DocObject>, n: string)
    requires CountChar(n, ':') > 1
    ensures Expand(objects, n) == Err(TooManyParts(n))
  {
    SplitCount(n, ':');
    CountCharZero(n, ':');
  }

  // ---------------------------------------------------------------------------
  // GetOrCreate

  /** `GetOrCreate` as a function of the document: the name it returns and the
      objects afterwards. */
  function Obtain(objects: map<string, DocObject>, container: Option<string>, name: string, typeId: string): (r: (string, map<string, DocObject>))
    requires container.Some? ==> container.value in objects
    ensures Holds(r.1, container, r.0) && StartsWith(r.0, name)
    ensures Holds(objects, container, name) ==> r == (name, objects)
    ensures !Holds(objects, container, name) ==>
      && r.0 !in objects
      && (name !in objects ==> r.0 == name)
      && r.1.Keys == objects.Keys + {r.0}
      && r.1[r.0] == Blank(r.0, typeId)
      && (forall k :: k in objects && Some(k) != container ==> r.1[k] == objects[k])
  {
    if Holds(objects, container, name) then (name, objects)
    else
      var n := UniqueName(objects.Keys, name);
      (n, AddTo(objects, container, n, Blank(n, typeId)))
  }

  /** Get an object of the container by name, or create one of `typeId` under that
      name (`addObject` on a document, `newObject` on a group). */
  method GetOrCreate(doc: Document, container: Option<string>, name: string, typeId: string) returns (n: string)
    requires container.Some? ==> container.value in doc.objects
    modifies doc
    ensures (n, doc.objects) == Obtain(old(doc.objects), container, name, typeId)
  {
    if Holds(doc.objects, container, name) {
      return name;
    }
    n := UniqueName(doc.objects.Keys, name);
    doc.objects := AddTo(doc.objects, container, n, Blank(n, typeId));
  }

  // ---------------------------------------------------------------------------
  // CopyObj

  /** The first member of `group` (still in the document) whose label is `wanted`. */
  function FirstWithLabel(objects: map<string, DocObject>, group: seq<string>, wanted: string): (r: Option<string>)
    ensures r.Some? ==> r.value in group && r.value in objects && objects[r.value].objectLabel == wanted
    ensures r.None? ==> forall j :: 0 <= j < |group| && group[j] in objects ==> objects[group[j]].objectLabel != wanted
  {
    if group == [] then None
    else if group[0] in objects && objects[group[0]].objectLabel == wanted then Some(group[0])
    else FirstWithLabel(objects, group[1..], wanted)
  }

  /** No member before the one found carries the label. */
  lemma {:induction false} FirstWithLabelIsFirst(objects: map<string, DocObject>, group: seq<string>, wanted: string)
    ensures var r := FirstWithLabel(objects, group, wanted);
      r.Some? ==> exists i ::
        && 0 <= i < |group| && group[i] == r.value
        && (forall j :: 0 <= j < i && group[j] in objects ==> objects[group[j]].objectLabel != wanted)
  {
    if group != [] && !(group[0] in objects && objects[group[0]].objectLabel == wanted) {
      var r := FirstWithLabel(objects, group[1..], wanted);
      FirstWithLabelIsFirst(objects, group[1..], wanted);
      if r.Some? {
        var i :| 0 <= i < |group[1..]| && group[1..][i] == r.value &&
          (forall j :: 0 <= j < i && group[1..][j] in objects ==> objects[group[1..][j]].objectLabel != wanted);
        assert group[i + 1] == r.value;
        assert forall j :: 1 <= j < i + 1 ==> group[j] == group[1..][j - 1];
      }
    }
  }

  /** `CopyObj`: with `checkExist`, the first child of `target` carrying the source's
      label is returned and nothing is copied; otherwise the source is copied under a
      unique name derived from its own, added to `target` and given the source's label. */
  method CopyObj(doc: Document, sourceName: string, source: DocObject, target: string, checkExist: bool) returns (n: string)
    requires target in doc.objects
    modifies doc
    ensures var found := FirstWithLabel(old(doc.objects), old(doc.objects)[target].group, source.objectLabel);
      if checkExist && found.Some? then
        n == found.value && doc.objects == old(doc.objects)
      else
        && n == UniqueName(old(doc.objects).Keys, sourceName)
        && doc.objects == AddTo(old(doc.objects), Some(target), n, source)
  {
    if checkExist {
      var group := doc.objects[target].group;
      for i := 0 to |group|
        invariant FirstWithLabel(doc.objects, group, source.objectLabel) == FirstWithLabel(doc.objects, group[i..], source.objectLabel)
      {
        assert group[i..][1..] == group[i + 1..];
        if group[i] in doc.objects && doc.objects[group[i]].objectLabel == source.objectLabel {
          return group[i];
        }
      }
    }
    // doc.copyObject(source)
    n := UniqueName(doc.objects.Keys, sourceName);
    doc.objects := doc.objects[n := source];
    // target.addObject(obj)
    doc.objects := doc.objects[target := doc.objects[target].(group := doc.objects[target].group + [n])];
    // obj.Label = source.Label
    doc.objects := doc.objects[n := doc.objects[n].(objectLabel := source.objectLabel)];
  }

  /** The copy made by `CopyObj` carries the source's label and is a member of the target. */
  lemma CopyCarriesLabel(objects: map<string, DocObject>, sourceName: string, source: DocObject, target: string)
    requires target in objects
    ensures var n := UniqueName(objects.Keys, sourceName);
      var after := AddTo(objects, Some(target), n, source);
      n !in objects && Holds(after, Some(target), n) && after[n].objectLabel == source.objectLabel &&
      after.Keys == objects.Keys + {n}
  {
  }

  // ---------------------------------------------------------------------------
  // GetStored

  function StoredKey(typeId: string): string {
    "profile_" + typeId
  }

  function LocalNameKey(typeId: string): string {
    "profile_" + typeId + "_localName"
  }

  /** The two string properties are always added together. */
  predicate PropsPaired(props: map<string, string>, typeId: string) {
    StoredKey(typeId) in props ==> LocalNameKey(typeId) in props
  }

  /** What `CopyObj` with its label check does to the document: the first child of
      `target` carrying the source's label, with the document as it was, or the copy's
      unique name, with the copy added to `target`. Only `target`'s group changes. */
  function CopyOutcome(objects: map<string, DocObject>, sourceName: string, source: DocObject, target: string): (r: (string, map<string, DocObject>))
    requires target in objects
    ensures target in r.1 && Holds(r.1, Some(target), r.0) && r.1[r.0].objectLabel == source.objectLabel
    ensures r.1.Keys <= objects.Keys + {r.0}
    ensures r.1[target] == objects[target].(group := r.1[target].group)
    ensures forall k :: k in objects && k != target ==> k in r.1 && r.1[k] == objects[k]
  {
    var found := FirstWithLabel(objects, objects[target].group, source.objectLabel);
    if found.Some? then (found.value, objects)
    else
      var n := UniqueName(objects.Keys, sourceName);
      (n, AddTo(objects, Some(target), n, source))
  }

  /** The copy step of `GetStored`: `obj` is copied into the body (or its labelled
      child reused) as `CopyOutcome` says, and both string properties record the
      original and the copy; nothing else changes. */
  method StoreCopy(doc: Document, body: string, objName: string, obj: DocObject, typeId: string) returns (copy: string)
    requires body in doc.objects
    modifies doc
    ensures var c := CopyOutcome(old(doc.objects), objName, obj, body);
      && copy == c.0
      && doc.objects == c.1[body := c.1[body].(props := old(doc.objects[body].props)[StoredKey(typeId) := objName][LocalNameKey(typeId) := copy])]
  {
    copy := CopyObj(doc, objName, obj, body, true);
    var rec := doc.objects[body];
    doc.objects := doc.objects[body := rec.(props := rec.props[StoredKey(typeId) := objName][LocalNameKey(typeId) := copy])];
  }

  /** `GetStored`: the body's local copy of `obj`, recorded in the string properties
      `profile_<typeId>` (the original's name) and `profile_<typeId>_localName` (the
      copy's name). A recorded original with the same name gives back the recorded
      copy (or nothing, when it is gone); any other original is copied into the body
      (`CopyObj` with its label check) and recorded. Adding the two properties with
      empty values before they are overwritten is not observable and is folded into
      the final update. */
  method GetStored(doc: Document, body: string, objName: string, obj: DocObject, typeId: string) returns (r: Option<string>)
    requires body in doc.objects && PropsPaired(doc.objects[body].props, typeId)
    modifies doc
    ensures body in doc.objects
    ensures StoredKey(typeId) in doc.objects[body].props && doc.objects[body].props[StoredKey(typeId)] == objName
    ensures PropsPaired(doc.objects[body].props, typeId)
    ensures var props := old(doc.objects[body].props);
      if StoredKey(typeId) in props && props[StoredKey(typeId)] == objName then
        var local := props[LocalNameKey(typeId)];
        && r == (if Holds(old(doc.objects), Some(body), local) then Some(local) else None)
        && doc.objects == old(doc.objects)
      else if objName == "" && StoredKey(typeId) !in props then
        && r == (if Holds(old(doc.objects), Some(body), "") then Some("") else None)
        && doc.objects == old(doc.objects)[body := old(doc.objects[body]).(props := props[StoredKey(typeId) := ""][LocalNameKey(typeId) := ""])]
      else
        var c := CopyOutcome(old(doc.objects), objName, obj, body);
        && r == Some(c.0)
        && doc.objects == c.1[body := c.1[body].(props := props[StoredKey(typeId) := objName][LocalNameKey(typeId) := c.0])]
  {
    var key, localKey := StoredKey(typeId), LocalNameKey(typeId);
    var rec := doc.objects[body];
    var props := rec.props;
    if key !in props {
      props := props[key := ""][localKey := ""];
    }
    if props[key] == objName {
      if key !in rec.props {
        doc.objects := doc.objects[body := rec.(props := props)];
      }
      var local := props[localKey];
      r := if Holds(doc.objects, Some(body), local) then Some(local) else None;
      return;
    }
    var copy := StoreCopy(doc, body, objName, obj, typeId);
    r := Some(copy);
  }
}
