/** The list logic of `commands/create_profiles.py`: its own copies of the two
    selection helpers, the wire list of the "create profiles" panel with its
    de-duplication, and the command's activity test. */
module CreateProfiles {
  import opened Text
  import opened Doc
  import Utils

  /** The module's own copy of `IsAllWires`; same loops, same result as the one in
      `utils.py`. */
  method IsAllWires(objects: seq<SelectionObject>) returns (r: bool)
    ensures r == Utils.AllWires(objects)
  {
    for i := 0 to |objects|
      invariant forall i', j :: 0 <= i' < i && !Utils.IsSketchType(objects[i'].typeId) && 0 <= j < |objects[i'].subObjects| ==>
        objects[i'].subObjects[j].Edge?
    {
      if Utils.IsSketchType(objects[i].typeId) {
        continue;
      }
      var subObjects := objects[i].subObjects;
      for j := 0 to |subObjects|
        invariant forall j' :: 0 <= j' < j ==> subObjects[j'].Edge?
      {
        if !subObjects[j].Edge? {
          return false;
        }
      }
    }
    return true;
  }

  /** The module's own copy of `GetAllWireNames`. */
  method GetAllWireNames(objects: seq<SelectionObject>) returns (wires: seq<string>)
    ensures wires == Utils.WireNames(objects)
  {
    wires := [];
    for i := 0 to |objects|
      invariant wires == Utils.WireNames(objects[..i])
    {
      var o := objects[i];
      assert objects[..i + 1][..i] == objects[..i];
      if Utils.IsSketchType(o.typeId) && o.subElementNames == [] {
        wires := wires + [o.objectName];
        continue;
      }
      ghost var before := wires;
      var subs := o.subElementNames;
      for j := 0 to |subs|
        invariant wires == before + Utils.EdgeSubNames(o.objectName, subs[..j])
      {
        assert subs[..j + 1][..j] == subs[..j];
        if Contains(subs[j], "Edge") {
          wires := wires + [Utils.Qualified(o.objectName, subs[j])];
        }
      }
      assert subs[..|subs|] == subs;
    }
    assert objects[..|objects|] == objects;
  }

  /** The command is offered when the selection is not empty and holds only wires. */
  method IsActive(selection: seq<SelectionObject>) returns (active: bool)
    ensures active <==> Utils.AllWires(selection) && selection != []
  {
    var allWires := IsAllWires(selection);
    if !allWires {
      return false;
    }
    return selection != [];
  }

  // ---------------------------------------------------------------------------
  // remove_repetitions

  predicate Distinct(xs: seq<string>) {
    forall i, j :: 0 <= i < j < |xs| ==> xs[i] != xs[j]
  }

  /** `list(set(xs))`. Python leaves the order of a set unspecified; the model keeps
      the first occurrence of every entry. */
  function Dedup(xs: seq<string>): (r: seq<string>)
    ensures Distinct(r)
    ensures forall x :: x in r <==> x in xs
  {
    if xs == [] then []
    else
      var r := Dedup(xs[..|xs| - 1]);
      var last := xs[|xs| - 1];
      assert xs == xs[..|xs| - 1] + [last];
      if last in r then r else r + [last]
  }

  /** The object part of a wire name: `name.split(':')[0]`. */
  function Parent(name: string): string {
    Split(name, ':')[0]
  }

  /** The entries of `xs`, in order, that have no `':'` or whose object part is not
      itself an entry of `within`. */
  function KeepEntries(xs: seq<string>, within: seq<string>): (r: seq<string>)
    ensures forall x :: x in r <==> x in xs && (':' !in x || Parent(x) !in within)
  {
    if xs == [] then []
    else
      var last := xs[|xs| - 1];
      var r := KeepEntries(xs[..|xs| - 1], within);
      assert xs == xs[..|xs| - 1] + [last];
      if ':' !in last || Parent(last) !in within then r + [last] else r
  }

  /** The list `remove_repetitions` writes back into the panel. */
  function WithoutRepetitions(xs: seq<string>): seq<string> {
    var d := Dedup(xs);
    KeepEntries(d, d)
  }

  /** Keeping entries keeps their order and so never creates a duplicate. */
  lemma {:induction false} KeepEntriesDistinct(xs: seq<string>, within: seq<string>)
    requires Distinct(xs)
    ensures Distinct(KeepEntries(xs, within))
  {
    if xs != [] {
      var init := xs[..|xs| - 1];
      assert Distinct(init);
      KeepEntriesDistinct(init, within);
      assert xs[|xs| - 1] !in init;
    }
  }

  /** The rewritten list has no duplicates, holds only entries of the input, and
      holds an entry exactly when it has no `':'` or its object is not listed on its
      own. */
  lemma RemoveRepetitionsSpec(xs: seq<string>)
    ensures Distinct(WithoutRepetitions(xs))
    ensures forall x :: x in WithoutRepetitions(xs) <==> x in xs && (':' !in x || Parent(x) !in xs)
  {
    KeepEntriesDistinct(Dedup(xs), Dedup(xs));
  }

  /** An entry with a `':'` is never the object part of itself, so it is never
      dropped because of itself. */
  lemma ParentDiffers(name: string)
    requires ':' in name
    ensures Parent(name) != name
  {
    SplitPartsFree(name, ':');
  }

  /** A list without duplicates is its own de-duplication. */
  lemma {:induction false} DedupDistinct(xs: seq<string>)
    requires Distinct(xs)
    ensures Dedup(xs) == xs
  {
    if xs != [] {
      var init := xs[..|xs| - 1];
      assert Distinct(init);
      DedupDistinct(init);
      assert xs[|xs| - 1] !in init;
      assert init + [xs[|xs| - 1]] == xs;
    }
  }

  /** When every entry passes the test, nothing is dropped. */
  lemma {:induction false} KeepEntriesAll(xs: seq<string>, within: seq<string>)
    requires forall x :: x in xs ==> ':' !in x || Parent(x) !in within
    ensures KeepEntries(xs, within) == xs
  {
    if xs != [] {
      var init := xs[..|xs| - 1];
      assert forall x :: x in init ==> x in xs;
      KeepEntriesAll(init, within);
      assert xs[|xs| - 1] in xs;
      assert init + [xs[|xs| - 1]] == xs;
    }
  }

  /** Pressing "add" with an empty selection leaves the list as it is: removing
      repetitions twice is removing them once. */
  lemma RemoveRepetitionsIdempotent(xs: seq<string>)
    ensures WithoutRepetitions(WithoutRepetitions(xs)) == WithoutRepetitions(xs)
  {
    var r := WithoutRepetitions(xs);
    RemoveRepetitionsSpec(xs);
    DedupDistinct(r);
    KeepEntriesAll(r, r);
  }

  /** The list widget of the panel: its entries in display order. */
  class CreateProfilesBySketchWidget {
    var wireList: seq<string>

    constructor ()
      ensures wireList == []
    {
      wireList := [];
    }

    /** `remove_repetitions`: the list is cleared and refilled with its own entries,
        de-duplicated, minus the sub-element entries whose object is listed too. */
    method RemoveRepetitions()
      modifies this
      ensures wireList == WithoutRepetitions(old(wireList))
      ensures Distinct(wireList)
      ensures forall x :: x in wireList <==> x in old(wireList) && (':' !in x || Parent(x) !in old(wireList))
    {
      RemoveRepetitionsSpec(wireList);
      wireList := WithoutRepetitions(wireList);
    }

    /** `add_wires`: the wire names of the selection are appended, then repetitions
        are removed. */
    method AddWires(selection: seq<SelectionObject>)
      modifies this
      ensures wireList == WithoutRepetitions(old(wireList) + Utils.WireNames(selection))
      ensures forall x :: x in old(wireList) + Utils.WireNames(selection) && ':' !in x ==> x in wireList
    {
      var names := GetAllWireNames(selection);
      wireList := wireList + names;
      RemoveRepetitions();
    }
  }
}
