# Easy Profile Frame — a verified model of the frame-piece rebuild logic

Easy Profile Frame is a FreeCAD add-in. It turns a sketched wire frame into
aluminium-profile pieces. Each piece is a `ProfileFrameObject`: a PartDesign
feature that pads a copy of a profile sketch along one edge of the wire sketch.
Either end of a piece may be chamfered. A chamfered end gets an extension pad
and a pocket that cuts a triangular cutting sketch off that extension. Small
memos let the piece skip work that would change nothing.

This project models that rebuild logic in Dafny, together with the selection
and naming helpers around it, and proves what the code promises.

- `wrappers.dfy`: `Option` and `Result`.
- `text.dfy` (`Text`): the Python string operations the code relies on, each
  with its own lemmas. These are `in`, `startswith`, `split(':')`, `join`,
  `replace`, integer formatting and character counts.
- `doc.dfy` (`Doc`): the FreeCAD document, reduced to a map from object names
  to records. Each record has a label, a type, a group (the `OutList` of a
  container), string properties, sub-shapes, a bound box, pad/pocket inputs,
  sketch geometry, attachment data, visibility and a recompute counter. It also
  holds the model's unique-name rule and `removeObject`.
- `utils.dfy` (`Utils`): `commands/utils.py`. This covers the selection
  filters, the sub-edge expansion, get-or-create, copy-by-label and the stored
  local copy.
- `create_profiles.dfy` (`CreateProfiles`): the list logic of
  `commands/create_profiles.py`. This covers the module's copies of the two
  selection helpers, the panel's wire list with `add_wires` and
  `remove_repetitions`, and the command's `IsActive`.
- `frame_geometry.dfy` (`FrameGeometry`): the values behind one piece. These
  are rounding to five places, the chamfer width and extension, the cutting
  triangle, the pad length and z-offset, the reported length, the `EdgeName`
  parse, the names of the features a piece creates, and the memo that decides
  when a cutting sketch is redrawn.
- `profile_frame.dfy` (`ProfileFrame`): `commands/ProfileFrameObject.py` as
  imperative code. `FrameFeature` is the feature object with its properties.
  `ProfileFrameObject` is the Python proxy with its bookkeeping fields and the
  methods that rebuild the piece in a `Document`. Module-level members cover
  `CreateProfileFrameBody` and the frame predicates the methods keep.

Each method is proved against a specification. A method's postcondition ties
its results and the new state to pure functions of the old state. Lemmas then
prove about those functions what the source promises.

Several predicates say what a step leaves alone:

- `FrameHeld`: the frame is a record that is not a member of its own group.
- `Untouched`: the only records that changed are the named ones and the
  frame's group.
- `Members`: the group gained exactly these names.

`CreateChamfer`, for instance, ends with a guarantee that it touched only its
extension pad, its cutting sketch, its pocket and the profile sketch it hid.

## Model

| member | source | states |
|---|---|---|
| Utils.IsAllWires | freecad/easy_profile_frame/commands/utils.py:6-14 | the nested loop returns `AllWires(objects)`: false exactly when a selection that is neither a sketch nor a Draft object has a sub-object that is not an edge; sketch-typed selections are skipped and an empty selection gives true |
| Utils.GetAllWireNames | freecad/easy_profile_frame/commands/utils.py:16-31 | the loop returns `WireNames(objects)`, the per-selection names in selection order |
| Utils.WireNamesMember | freecad/easy_profile_frame/commands/utils.py:22-31 | a name is produced iff it is the bare name of a sketch or Draft selection with no sub-elements, or `Obj:Sub` for a sub-element name of a non-bare selection that contains `Edge` |
| Utils.EdgeSubNamesMember | freecad/easy_profile_frame/commands/utils.py:28-30 | the sub-element loop yields `Obj:Sub` exactly for the sub-names containing `Edge`, and nothing else |
| Utils.EdgeNames | freecad/easy_profile_frame/commands/utils.py:45-46 | a bare object's expansion has one name per edge of the object |
| Utils.EdgeNamesAt | freecad/easy_profile_frame/commands/utils.py:45-46 | entry `i` of the expansion is `n:Edge<i+1>`: 1-based, in order |
| Utils.EdgeNamesDistinct | freecad/easy_profile_frame/commands/utils.py:45-46 | the expanded names are pairwise distinct |
| Utils.GetSubEdges | freecad/easy_profile_frame/commands/utils.py:33-47 | the loop over the names returns `SubEdges(doc.objects, names)` and leaves the document unchanged |
| Utils.SubEdgesSucceeds | freecad/easy_profile_frame/commands/utils.py:37-47 | the whole expansion succeeds iff every single name expands: it has at most one `':'`, and its object exists |
| Utils.SubEdgesFailurePersists | freecad/easy_profile_frame/commands/utils.py:37-47 | once a name fails, every longer list that contains it fails too: the first failure wins |
| Utils.ExpandTooManyParts | freecad/easy_profile_frame/commands/utils.py:39-40 | a name with more than one `':'` fails the two-way unpacking of `split(':')` |
| Utils.Obtain | freecad/easy_profile_frame/commands/utils.py:49-58 | an object the container already holds is returned with nothing created; otherwise exactly one fresh blank object of the type is added, under the name when it is free, and it joins the container's group; every other record is unchanged |
| Utils.GetOrCreate | freecad/easy_profile_frame/commands/utils.py:49-58 | the returned name and the new document are `Obtain` of the old document |
| Utils.FirstWithLabel | freecad/easy_profile_frame/commands/utils.py:66-68 | a result is a member of the target's group, exists, and carries the wanted label; no result means no member carries it |
| Utils.FirstWithLabelIsFirst | freecad/easy_profile_frame/commands/utils.py:66-68 | the member found is the first one in group order that carries the label |
| Utils.CopyObj | freecad/easy_profile_frame/commands/utils.py:60-73 | with `checkExist` and a labelled child, that child is returned and nothing is copied; otherwise one copy is added under the document's unique name for the source's name, joins the target's group and carries the source's label |
| Utils.CopyCarriesLabel | freecad/easy_profile_frame/commands/utils.py:69-73 | the copy is new, is held by the target and carries the source's label; it is the only new key |
| Utils.CopyOutcome | freecad/easy_profile_frame/commands/utils.py:60-73 | `CopyObj` with its label check: the result is a member of the target carrying the source's label; at most that one name is new, the target changes only in its group, and every other record is unchanged |
| Utils.GetStored | freecad/easy_profile_frame/commands/utils.py:75-89 | afterwards both properties exist and `profile_<typeId>` holds the original's name; a recorded original of the same name gives back the recorded local copy, or nothing when the body no longer holds it, with the document unchanged (or only the two empty properties added); any other original gives `CopyOutcome`'s member, which is the body's first child with the label or a fresh copy added to the body, and the new document is `CopyOutcome`'s with only the body's two properties rewritten to the original's and the member's names |
| Utils.StoreCopy | freecad/easy_profile_frame/commands/utils.py:84-89 | the member returned and the document are `CopyOutcome`'s: the labelled child reused with nothing added, or a fresh copy under the unique name added to the body; then only the body's two properties change, to the original's name and the member's name |
| CreateProfiles.IsAllWires | freecad/easy_profile_frame/commands/create_profiles.py:15-23 | the module's own loop has the same result as the one in `utils.py`: `Utils.AllWires` |
| CreateProfiles.GetAllWireNames | freecad/easy_profile_frame/commands/create_profiles.py:25-40 | the module's own loop returns `Utils.WireNames`, as the `utils.py` copy does |
| CreateProfiles.IsActive | freecad/easy_profile_frame/commands/create_profiles.py:152-158 | the command is active iff every selection passes `IsAllWires` and the selection is not empty |
| CreateProfiles.Dedup | freecad/easy_profile_frame/commands/create_profiles.py:120 | `list(set(xs))` has no duplicates and exactly the members of `xs` |
| CreateProfiles.DedupDistinct | freecad/easy_profile_frame/commands/create_profiles.py:120 | a list without duplicates is its own de-duplication |
| CreateProfiles.KeepEntries | freecad/easy_profile_frame/commands/create_profiles.py:121 | an entry is kept iff it has no `':'` or its object part is not in the list it is checked against |
| CreateProfiles.KeepEntriesDistinct | freecad/easy_profile_frame/commands/create_profiles.py:121 | filtering a list without duplicates creates none |
| CreateProfiles.KeepEntriesAll | freecad/easy_profile_frame/commands/create_profiles.py:121 | when every entry passes the test, the filter returns the list itself |
| CreateProfiles.ParentDiffers | freecad/easy_profile_frame/commands/create_profiles.py:121 | the object part of an entry with a `':'` differs from the entry, so no entry is dropped because of itself |
| CreateProfiles.RemoveRepetitionsSpec | freecad/easy_profile_frame/commands/create_profiles.py:118-123 | the rewritten list has no duplicates; an entry is in it iff it was in the input and either has no `':'` or its object part `P` is not itself listed |
| CreateProfiles.RemoveRepetitionsIdempotent | freecad/easy_profile_frame/commands/create_profiles.py:118-123 | removing repetitions twice is removing them once |
| CreateProfiles.CreateProfilesBySketchWidget.constructor | freecad/easy_profile_frame/commands/create_profiles.py:43-45 | the panel's wire list starts empty |
| CreateProfiles.CreateProfilesBySketchWidget.RemoveRepetitions | freecad/easy_profile_frame/commands/create_profiles.py:118-123 | the list is rewritten in place to `WithoutRepetitions` of itself: no duplicates, and the membership rule of `RemoveRepetitionsSpec` |
| CreateProfiles.CreateProfilesBySketchWidget.AddWires | freecad/easy_profile_frame/commands/create_profiles.py:104-107 | the selection's wire names are appended and repetitions removed; every appended or old entry without `':'` stays listed |
| FrameGeometry.Round5Error | freecad/easy_profile_frame/commands/ProfileFrameObject.py:219-220 | `round(x, 5)` moves `x` by at most 0.000005 |
| FrameGeometry.Round5NonNegative | freecad/easy_profile_frame/commands/ProfileFrameObject.py:219-220 | rounding keeps a non-negative value non-negative |
| FrameGeometry.Round5Exact | freecad/easy_profile_frame/commands/ProfileFrameObject.py:219-220 | a value already on five decimal places is unchanged by rounding |
| FrameGeometry.Round5Idempotent | freecad/easy_profile_frame/commands/ProfileFrameObject.py:219-220 | rounding twice is rounding once |
| FrameGeometry.ChamferWidth | freecad/easy_profile_frame/commands/ProfileFrameObject.py:215-219 | the chamfer width is never negative |
| FrameGeometry.ChamferWidthExtent | freecad/easy_profile_frame/commands/ProfileFrameObject.py:215-219 | the width is the bound box's X extent for direction codes 1 and 3, and its Y extent for every other code, up to rounding |
| FrameGeometry.ExtendedLength | freecad/easy_profile_frame/commands/ProfileFrameObject.py:220 | the extension of a chamfered end is never negative |
| FrameGeometry.ExtendedLengthZeroAngle | freecad/easy_profile_frame/commands/ProfileFrameObject.py:220 | when `tan(0) = 0`, a 0-degree chamfer extends nothing |
| FrameGeometry.ExtendedLengthError | freecad/easy_profile_frame/commands/ProfileFrameObject.py:220 | the extension is `abs(tan(angle) * width / 2)` up to rounding |
| FrameGeometry.Triangle | freecad/easy_profile_frame/commands/ProfileFrameObject.py:255-257 | the cutting triangle has three corners |
| FrameGeometry.TriangleLegs | freecad/easy_profile_frame/commands/ProfileFrameObject.py:255-257 | the triangle has a right angle at corner 0: corners 0 and 1 share their x and are `width` apart in y (the leg across the profile); corners 0 and 2 share their y and are `2 * length` apart in x |
| FrameGeometry.TriangleMirrored | freecad/easy_profile_frame/commands/ProfileFrameObject.py:257 | the right triangle is the left one mirrored in x, corner by corner |
| FrameGeometry.ChamferSegments | freecad/easy_profile_frame/commands/ProfileFrameObject.py:258-263 | three segments are added |
| FrameGeometry.ChamferSegmentsClosed | freecad/easy_profile_frame/commands/ProfileFrameObject.py:258-263 | the three segments form a closed loop: each ends where the next starts, and the last ends where the first starts |
| FrameGeometry.PadSpansEdge | freecad/easy_profile_frame/commands/ProfileFrameObject.py:114-119 | the z-offset is the left end's plain extension (its `ExtendedLength` when its angle is 0, else 0); shifted by it, the pad reaches from `-(edge + right plain extension)` to the left plain extension, so with non-negative extensions the pad is never shorter than the edge |
| FrameGeometry.FrameLengthAsWrittenCountsTwice | freecad/easy_profile_frame/commands/ProfileFrameObject.py:114-142 | as written, `Length` counts each unchamfered end's extension twice; the corrected `FrameLength` counts it once |
| FrameGeometry.FrameLengthExample | freecad/easy_profile_frame/commands/ProfileFrameObject.py:142 | a 100 mm edge with 5 mm plain extensions reports 120 mm as written and 110 mm corrected |
| FrameGeometry.FrameLengthCountsEachEndOnce | freecad/easy_profile_frame/commands/ProfileFrameObject.py:142 | for ends whose angles are not negative, the corrected length is the edge plus each end's `ExtendedLength` exactly once, whether the end is chamfered or not |
| FrameGeometry.ParseEdgeName | freecad/easy_profile_frame/commands/ProfileFrameObject.py:104-107 | the parse succeeds iff the name has exactly one `':'`; the two parts rejoin to the name and contain no `':'`; failure is `InvalidEdgeName` |
| FrameGeometry.ParseEdgeNameRoundTrip | freecad/easy_profile_frame/commands/ProfileFrameObject.py:104-107 | parsing `sketch:sub` with colon-free parts gives back the two parts |
| FrameGeometry.PadName | freecad/easy_profile_frame/commands/ProfileFrameObject.py:156 | a pad's name is `frame_` plus the name with `':'` replaced, so it has no `':'` and is six characters longer |
| FrameGeometry.EndNamesDistinct | freecad/easy_profile_frame/commands/ProfileFrameObject.py:124-136 | the two ends' names differ, and no cutting sketch or pocket name of an end starts like a pad name |
| FrameGeometry.ChamferPartsDistinct | freecad/easy_profile_frame/commands/ProfileFrameObject.py:221-234 | an end's extension pad, cutting sketch and pocket never share a name, whatever unique suffix the document appended |
| FrameGeometry.ChamferStepDrawsKey | freecad/easy_profile_frame/commands/ProfileFrameObject.py:224-231 | from a truthful memo, the memo step leaves the key recorded and the sketch holding exactly that key's triangle |
| FrameGeometry.ChamferStepRedrawsIffKeyChanged | freecad/easy_profile_frame/commands/ProfileFrameObject.py:225-231 | from a truthful memo, the step changes the end iff the recorded key differs from the new one |
| FrameGeometry.CleanStepCoherent | freecad/easy_profile_frame/commands/ProfileFrameObject.py:188-194 | cleaning with the memo forgotten keeps the memo truthful, so switching a chamfer off and on redraws it |
| FrameGeometry.StaleMemoLeavesSketchEmpty | freecad/easy_profile_frame/commands/ProfileFrameObject.py:188-231 | as written, cleaning keeps the memo; the same chamfer switched back on finds its key recorded and leaves the re-created cutting sketch empty |
| ProfileFrame.SaveRestore | freecad/easy_profile_frame/commands/ProfileFrameObject.py:168-186 | restoring what was saved gives back the memo, the left sketch's label and the right sketch's record unchanged; the four quantities come back only when the unit library reads back what it wrote |
| ProfileFrame.GetSketchRAsWrittenNeverCopies | freecad/easy_profile_frame/commands/ProfileFrameObject.py:272 | as written, the label lookup in `CopyObj` always finds a child, because the local sketch is a child of the frame with the label searched for |
| ProfileFrame.GetSketchRAsWrittenReturnsLeft | freecad/easy_profile_frame/commands/ProfileFrameObject.py:272-277 | as written, when the local sketch is the first child with its label, `getSketchR` gets the left sketch itself back, and then relabels and re-attaches it |
| ProfileFrame.RightCopyKeepsLeft | freecad/easy_profile_frame/commands/ProfileFrameObject.py:272-277 | the corrected copy is a new member of the frame, is attached to the local sketch at `z = -pad_length`, has the same outline, and leaves every other record (the local sketch included) as it was |
| ProfileFrame.RightCopyIsReused | freecad/easy_profile_frame/commands/ProfileFrameObject.py:266-277 | when the local sketch carries the recorded label, the record just made passes the reuse test of the next call |
| ProfileFrame.ChamferPartsNamesDistinct | freecad/easy_profile_frame/commands/ProfileFrameObject.py:188-197 | the three names `clean_chamfer` looks up differ; the extension name is the pad name `create_chamfer` uses when the end's name has no `':'` |
| ProfileFrame.LocateEdge | freecad/easy_profile_frame/commands/ProfileFrameObject.py:103-114 | the edge is found iff the name has one `':'`, the sketch exists and has the sub-element; its length is that sub-element's length; a bad name fails as `InvalidEdgeName` |
| ProfileFrame.FrameFeature.constructor | freecad/easy_profile_frame/commands/ProfileFrameObject.py:298-301 | a freshly added feature has no proxy and shows nothing |
| ProfileFrame.ProfileFrameObject.constructor | freecad/easy_profile_frame/commands/ProfileFrameObject.py:21-55 | the proxy attaches itself, gives the feature its properties with their defaults and starts with an empty memo and no recorded sketches |
| ProfileFrame.ProfileFrameObject.GetState | freecad/easy_profile_frame/commands/ProfileFrameObject.py:168-177 | the saved state is the fields, with the four quantities as text |
| ProfileFrame.ProfileFrameObject.SetState | freecad/easy_profile_frame/commands/ProfileFrameObject.py:179-186 | the fields become the parsed saved state |
| ProfileFrame.ProfileFrameObject.ApplyOffsetAndRotation | freecad/easy_profile_frame/commands/ProfileFrameObject.py:64-88 | no change and no recompute when the four values equal the last applied; otherwise the offset becomes `(x, y, z)` turned by `angle` about Z, with one recompute; either way the last values are the arguments, so a repeat call changes nothing |
| ProfileFrame.ProfileFrameObject.Pad | freecad/easy_profile_frame/commands/ProfileFrameObject.py:155-166 | the pad `frame_<name>` is fetched or created; its four inputs become the arguments, recomputed once iff one of them differed; sketch and pad are hidden; nothing else changes, and only the pad may join the frame |
| ProfileFrame.ProfileFrameObject.SetPadInputs | freecad/easy_profile_frame/commands/ProfileFrameObject.py:157-164 | the pad's inputs become the target, with one recompute iff they differed; sketch and pad are hidden; only those two records change and no member is added or removed |
| ProfileFrame.ProfileFrameObject.DrawChamferSketch | freecad/easy_profile_frame/commands/ProfileFrameObject.py:248-264 | the cutting sketch is attached to the base feature's XY plane at `offset`, turned by the direction, hidden, recomputed twice, and gains the triangle's three segments |
| ProfileFrame.ProfileFrameObject.UpdateCuttingSketch | freecad/easy_profile_frame/commands/ProfileFrameObject.py:224-231 | the cutting sketch `chamferCuttingSketch_<name>` is fetched or created; its record afterwards is the one found when the memo slot already holds the key, and otherwise `Redrawn` of it: cleared when a key was recorded, attached to the base feature's XY plane at `offset` turned by the direction, hidden, recomputed twice and given the triangle; its geometry is `ChamferStep` of the memo and the sketch as found; the slot holds the new key and the other slot is unchanged; no other record changes and only the sketch may join the frame |
| ProfileFrame.ProfileFrameObject.RedrawIfChanged | freecad/easy_profile_frame/commands/ProfileFrameObject.py:225-231 | with the key already in the slot the cutting record is left exactly as it was; otherwise it becomes `Redrawn` of it (cleared first only when a key was recorded, attached at `offset`, hidden, recomputed twice, triangle appended); the slot holds the key and no other record changes |
| ProfileFrame.ProfileFrameObject.CreateChamfer | freecad/easy_profile_frame/commands/ProfileFrameObject.py:205-246 | `ChamferMade`: the extension is `ExtendedLength` of the profile's width across the direction; the extension pad's record is `PadAfter` of the one found, padding the profile sketch by the extension on the base feature, reversed exactly at the right end, recomputed only when its inputs differed; the cutting sketch is the record found when the memo held the key and otherwise `Redrawn` at `offset` (at the right end `-pad_length`); the pocket is `PocketAfter` of the one found; the slot records the new key; only these three, the profile sketch and the frame's group change, the frame gains only the three, and nothing outside the frame changes |
| ProfileFrame.ProfileFrameObject.CutChamfer | freecad/easy_profile_frame/commands/ProfileFrameObject.py:224-245 | `CutLeft`: the cutting sketch fetched or created and left as found, or `Redrawn` at `offset`, as the memo decides; the pocket fetched or created and `PocketAfter` of the one found; the extension only hidden; the slot holds the key; only those three records change and only the sketch and pocket may join |
| ProfileFrame.ChamferLeftHolds | freecad/easy_profile_frame/commands/ProfileFrameObject.py:205-246 | the pad step followed by the cutting and pocket steps leaves the three features as `ChamferLeft` says, the cutting sketch and pocket fetched as they would have been before the pad step |
| ProfileFrame.ChamferFrames | freecad/easy_profile_frame/commands/ProfileFrameObject.py:205-246 | the pad step and the cutting and pocket steps together change only the extension, the profile sketch, the cutting sketch and the pocket, add only the three features to the frame, and change nothing outside the frame |
| ProfileFrame.FoundBefore | freecad/easy_profile_frame/commands/ProfileFrameObject.py:224-236 | fetching a name after a step that neither added nor rewrote it finds what fetching it before would have found |
| ProfileFrame.ConfigurePocket | freecad/easy_profile_frame/commands/ProfileFrameObject.py:233-245 | the pocket `Chamfer_<name>` is fetched or created; its record is `PocketAfter` of the one found: base feature and profile set to the extension and the cutting sketch, through all, with one recompute, only when either differed, and hidden; the extension is only hidden; no other record changes and only the pocket may join the frame |
| ProfileFrame.PocketAfterCuts | freecad/easy_profile_frame/commands/ProfileFrameObject.py:236-244 | the pocket afterwards cuts the cutting sketch out of the extension and is hidden; it is unchanged but for its visibility iff it already did, and otherwise it is through all with one more recompute |
| ProfileFrame.SetPocketInputs | freecad/easy_profile_frame/commands/ProfileFrameObject.py:236-244 | the pocket takes the extension as base feature and the cutting sketch as profile, through all and both ways, with one recompute, only when either differed; extension and pocket are hidden; only those two records change and no member is added or removed |
| ProfileFrame.ProfileFrameObject.CleanChamfer | freecad/easy_profile_frame/commands/ProfileFrameObject.py:188-203 | the new document is the old one minus exactly the end's pocket, cutting sketch and extension pad that the frame holds, none of which is held afterwards; nothing outside the frame changes; the end's `ExtendedLength` returns to 0 and becomes editable iff its extension pad was there, the other end untouched; the memo slot is emptied, as corrected |
| ProfileFrame.RemoveParts | freecad/easy_profile_frame/commands/ProfileFrameObject.py:188-203 | `reset` is whether the frame held the extension pad; the new document is the old one minus exactly the held parts; none of them is held afterwards; nothing outside the frame changes |
| ProfileFrame.RemovePartsAll | freecad/easy_profile_frame/commands/ProfileFrameObject.py:188-203 | removing the three parts one after the other removes exactly those the frame held at the start, leaves none held and keeps the frame; the third is held just before its removal iff it was held at the start |
| ProfileFrame.ProfileFrameObject.GetSketchR | freecad/easy_profile_frame/commands/ProfileFrameObject.py:266-279 | the result, the new document and the new record are `SketchRStep` of the old ones: a record whose label starts with the left label and `_R` is reused and nothing changes; otherwise the recorded sketch is removed (failing when it is gone) and a copy of the local sketch is made unconditionally (corrected), attached at `-padLength`, labelled `_R` and recorded; a result is a member of the frame; nothing outside the frame changes but the removed record |
| ProfileFrame.SketchRConfined | freecad/easy_profile_frame/commands/ProfileFrameObject.py:266-279 | `getSketchR` on values changes nothing outside the frame but for removing the recorded right-end sketch, and what it returns is a member of the frame |
| ProfileFrame.RightCopyConfined | freecad/easy_profile_frame/commands/ProfileFrameObject.py:272-277 | adding the right-end copy to the frame changes nothing outside the frame |
| ProfileFrame.ProfileFrameObject.SetSketch | freecad/easy_profile_frame/commands/ProfileFrameObject.py:281-288 | no change when the label is already recorded; otherwise the old local copy is removed, failing if it is gone; then the local sketch and the document are `CopyOutcome` of the document after the removal: the frame's first child carrying the label, with nothing added, or a fresh copy of the sketch under the unique name, added to the frame; its label is recorded |
| ProfileFrame.ProfileFrameObject.Execute | freecad/easy_profile_frame/commands/ProfileFrameObject.py:96-153 | skipped, changing nothing, iff the sketch or edge name is empty; a bad edge name, or a missing sketch, edge or local sketch, fails with nothing changed; once they are found, the run meets `EndsBuilt` with the pad length of the edge and the old end settings; a built piece meets `PieceBuilt`, has the left extension from the profile's width, shows the right pocket, else the left pocket, else the main pad, has the placement `AppliedPlacement` of the last applied values with the left z-offset, and is attached to the edge; a failed build leaves the placement; the chain runs the corrected `clean_chamfer`, `getSketchR` and `Length` listed under ## Findings; the feature's sketch, edge name, offsets and angle are outside what it may change |
| ProfileFrame.ProfileFrameObject.Build | freecad/easy_profile_frame/commands/ProfileFrameObject.py:114-153 | the run meets `EndsBuilt` (main pad, left end, right end, nothing outside the frame changed but the recorded right-end sketch); a built piece meets `PieceBuilt` (the corrected `FrameLength`, the ends' angles kept, chamfered ends read-only), has the left extension from the local sketch's width, shows the last feature built, has `attachmentOffset` and recompute count `AppliedPlacement` of the last applied values with the left z-offset, and is attached normal to the edge; a failure leaves the placement |
| ProfileFrame.ProfileFrameObject.Finish | freecad/easy_profile_frame/commands/ProfileFrameObject.py:142-150 | the length is `FrameLength` of the pad length and the ends; the piece shows the base; the offset and recompute count are `AppliedPlacement`: unchanged when the feature's offsets, angle and the z-offset equal the last applied, else the offset turned by the angle with one recompute; the last applied values become those; the piece is attached normal to the edge |
| ProfileFrame.ProfileFrameObject.BuildEnds | freecad/easy_profile_frame/commands/ProfileFrameObject.py:120-136 | `EndsBuilt` of the run it records: the main pad as `MainPadded` says, the left end on it as `EndDone` says, the right end on the left end's result as `RightDone` says, and nothing outside the frame changed but the recorded right-end sketch when the right end is chamfered |
| ProfileFrame.ProfileFrameObject.PadLeft | freecad/easy_profile_frame/commands/ProfileFrameObject.py:117-128 | the main pad as `MainPadded` says, then the left end on it as `EndDone` says, confined to the frame; the right end's settings and memo slot are unchanged |
| ProfileFrame.EndsBuiltOf | freecad/easy_profile_frame/commands/ProfileFrameObject.py:120-136 | the main pad, the left end and the right end in sequence, each confined to the frame, make up `EndsBuilt`, confined across the whole run |
| ProfileFrame.EndsBuiltPiece | freecad/easy_profile_frame/commands/ProfileFrameObject.py:120-136 | a run that ends in a feature keeps both ends' angles and directions, leaves a chamfered end read-only (the left one with `ExtendedLength` of the local sketch's width, the right one non-negative), empties a cleaned end's memo slot, and yields the right pocket, else the left pocket, else the main pad |
| ProfileFrame.ProfileFrameObject.MainPad | freecad/easy_profile_frame/commands/ProfileFrameObject.py:120 | `MainPadded`: the pad `frame_<edge>` is fetched or created and pads the local sketch by `padLength`, reversed, on no base feature, recomputed only when its inputs differed; sketch and pad are hidden; only they and the frame's group change, the frame gains only the pad, nothing outside the frame changes, and the local sketch keeps its bound box |
| ProfileFrame.ProfileFrameObject.LeftEnd | freecad/easy_profile_frame/commands/ProfileFrameObject.py:122-128 | `EndDone` for the left end: a positive angle chamfers it on `base` at offset 0 as `ChamferMade` says, sets `ExtendedLengthL` to the extension, read-only, and the pocket is the result; otherwise the parts the frame holds are removed, the memo slot is emptied and `ExtendedLengthL` goes back to 0 and editable iff the extension pad was there, and the result is `base`; the right end's fields and slot are kept; nothing outside the frame changes |
| ProfileFrame.ProfileFrameObject.RightEnd | freecad/easy_profile_frame/commands/ProfileFrameObject.py:129-136 | `RightDone`: with a positive angle the right-end sketch is had as `SketchRStep` says and its failure is the result with the end unchanged; otherwise the chamfer is cut on that sketch at `-padLength` as `EndDone` says; with no positive angle the end is cleaned as the left one is; the left end's fields and slot are kept; nothing outside the frame changes but the recorded right-end sketch |
| ProfileFrame.ProfileFrameObject.RightChamfer | freecad/easy_profile_frame/commands/ProfileFrameObject.py:129-134 | `RightDone` for a positive angle: `getSketchR`, then the chamfer on the sketch it returned; nothing outside the frame changes but the recorded right-end sketch |
| ProfileFrame.ProfileFrameObject.RightCut | freecad/easy_profile_frame/commands/ProfileFrameObject.py:131-134 | `ChamferMade` on the right-end sketch at `-padLength`, at the right end; `ExtendedLengthR` becomes the extension and read-only, its angle and direction kept; nothing outside the frame changes |
| ProfileFrame.RightChamfered | freecad/easy_profile_frame/commands/ProfileFrameObject.py:129-134 | a chamfer cut on the sketch `getSketchR` returned completes what `RightDone` says of a chamfered right end |
| ProfileFrame.CreateProfileFrameBody | freecad/easy_profile_frame/commands/ProfileFrameObject.py:290-306 | the name's `':'` become `_`; a held frame is reused: with the label already recorded nothing changes, otherwise, when a label is recorded but the old local copy is gone, it fails with nothing changed, and else the old local copy (if any) is removed and it succeeds exactly when the frame is still held, leaving the local sketch and the document as `CopyOutcome`, while on failure the document is left with only that removal; everything but the frame and its old local sketch is unchanged; an object under the name without a proxy fails with nothing changed; otherwise a fresh feature and proxy are added under the unique name, with the defaults and an empty memo, and the document gains exactly the frame and its local sketch, which is a copy of the sketch under the unique name for the sketch's name, every other record unchanged but the container's group; the frame takes the sketch's label and the edge name; a reused frame and its proxy keep every other field (`OnlyLinksChanged`: proxy, offsets, angle, `Length`, end settings and editor modes, attachment, shape, memo, `_last_*` values and right-end record), and `modifies` names only the local sketch, the edge name and the recorded label |
| ProfileFrame.ReuseFrame | freecad/easy_profile_frame/commands/ProfileFrameObject.py:304-305 | `setSketch` on a held frame followed by the new edge name: a recorded equal label changes nothing in the document; a missing old local copy fails with nothing changed; otherwise, after removing the old copy, it succeeds exactly when the frame is still held, with the local sketch and document as `CopyOutcome`; the edge name is set iff it succeeds; records other than the frame and its old local copy are unchanged, and so is every other field of the frame and its proxy (`OnlyLinksChanged`) |
| ProfileFrame.AddFrame | freecad/easy_profile_frame/commands/ProfileFrameObject.py:297-305 | a fresh feature and proxy under the unique name, with the property defaults and an empty memo but the recorded label; the document gains exactly the frame, as a member of the container, and the frame's local sketch, which is the sketch's record under the unique name for the sketch's name; every other record is unchanged but the container's group |
| ProfileFrame.NewFrame | freecad/easy_profile_frame/commands/ProfileFrameObject.py:297-303 | a blank `PartDesign::FeatureAdditivePython` under the unique name is added to the container, with a fresh proxy, the property defaults and an empty memo |
| ProfileFrame.FirstSketch | freecad/easy_profile_frame/commands/ProfileFrameObject.py:304 | `setSketch` on a frame just added, whose group is empty: the label lookup finds nothing, so the local sketch is a copy of the sketch's record under the unique name for the sketch's name, and the label is recorded; the document is the old one with the frame and the copy added, nothing else changed |

## Left out

- The solid kernel is not modelled. A `recompute()` is counted, and pads and pockets are records of their inputs; no solid is built.
- `Shape` is not modelled either. `obj.Shape = baseObj.Shape` is recorded as the name of the feature shown.
- `purgeTouched` is left out. `setEditorMode` is the `readOnlyL`/`readOnlyR` flags, and `MapMode` is the `objectXY`/`normalToEdge` flags.
- `Visibility` is a boolean.
- Removing an object does not prune the groups that list it. The model's "held" test checks that the member still exists, so a removed member is no longer held.
- `AttachmentOffset.Base = …` writes through to the offset, as FreeCAD's property proxy does.
- `math.tan(math.radians(a))` is the parameter `tanDeg`.
- `round(x, 5)` is round-half-even on exact reals, not on binary floating point.
- `Quantity.toStr` and `Quantity(str)` are the parameters `toStr` and `parse`.
- The model reads the tuple `chamfer_sketch_cache` holds by value, and compares the base feature by name.
- `ProfileFrame.ProfileFrameObject.SetPadInputs`: the model compares the pad's profile with the sketch by name. The source compares `pad_obj.Profile` with the sketch object, but a FreeCAD `PropertyLinkSub` reads back as a pair of the object and its sub-names, so that test is always true and the source reconfigures and recomputes the pad on every `execute`. The skip the model proves when the inputs are equal is one the source, read against FreeCAD's API, does not take. `ProfileFrame.ProfileFrameObject.Pad` and `ProfileFrame.PadAfter` rest on the same comparison.
- `ProfileFrame.SetPocketInputs`: in the same way, `pocket_obj.Profile != chamfer_sketch` compares a pair with an object and is always true, so the source reconfigures the pocket every time. `ProfileFrame.ConfigurePocket` and `ProfileFrame.PocketAfterCuts` prove the model's by-name skip, not the source's behaviour.
- Saving the memo goes through FreeCAD's JSON state, which turns its tuples into lists. A restored key then never equals a new tuple, so the first recompute after a reload always redraws the cutting sketch of each chamfered end. `ProfileFrame.SaveRestore` keeps the key as it was and does not model this.
- `ProfileFrame.ProfileFrameObject.Execute`: when the local sketch is missing, the model fails before anything changes. The source first fetches or creates the main pad and only then fails, on the sketch's `Visibility`.
- `ProfileFrame.ProfileFrameObject.Execute`: an exception is a `Failed` outcome. The changes made before it stay, as they do in the source; `RightDone` states them for a failure in `getSketchR`.
- `ProfileFrame.ProfileFrameObject.Execute`: the right end's extension is `ExtendedLength` of the right-end sketch's width, through `EndsBuilt`, `RightDone` and `ChamferMade`. It is not tied to the local sketch's width, because the right-end sketch may be a reused copy.
- Object names and labels follow the model's rule, not FreeCAD's. A taken name gets `0` digits appended until it is free (`Doc.UniqueName`); FreeCAD's `getUniqueObjectName` strips trailing digits and appends a counter. The model relies on a fresh name starting with the name asked for. FreeCAD's rule breaks that for names ending in a digit, as pad names along an edge do, so clauses such as `StartsWith(pad, PadName(name))` hold only under the model's rule.
- `Utils.FirstWithLabel`: `target.OutList` is the container's group, in group order. A FreeCAD `OutList` also lists link targets such as `AttachmentSupport` and `BaseFeature`, in its own order; `Utils.FirstWithLabelIsFirst` and the label lookups of `Utils.CopyObj` search only the group.
- `Utils.CopyObj` keeps the source's label on the copy, as `obj.Label = source.Label` asks. FreeCAD makes a duplicate label unique by default. `Utils.CopyCarriesLabel`, the label clause of `ProfileFrame.ProfileFrameObject.SetSketch` and the `requires` of `ProfileFrame.RightCopyIsReused` rest on this.
- When an end's angle goes from positive to 0, `execute` still pads it by the extension the chamfer computed, because `ExtendedLength` is read before `clean_chamfer` resets it to 0. The piece is too long for that one rebuild, and the next rebuild pads without the extension. The model reproduces this and proves nothing about it.
- Re-entrant `execute` through FreeCAD's recompute of the piece is not modelled.
- `GetExistent`, imported by `ProfileFrameObject.py`, is not defined in `utils.py`. It is modelled as `GetOrCreate`, which has the behaviour its call sites expect.
- `onDocumentRestored` and the view provider only re-attach GUI proxies and an icon, so they are left out.
- The properties `ChamferLengthL`/`ChamferLengthR` are never written after they are created, so they are left out.
- `CreateProfiles.Dedup`: Python leaves the order of `list(set(…))` unspecified. The model keeps first occurrences, and every property proved is about membership and duplicates, not order.
- The Qt and GUI code is left out. This covers signal wiring, radio buttons, the library list and `openDocument`, `remove_wires`, `show_all_wires`, `select_sketch`, the panel, and the commands' `Activated`/`Deactivated`.
- `Gui.Selection` is the selection parameter.
- `CreateProfilesBySketchPanel.draw`/`_draw` are empty stubs, so they are left out.
- `generate_bom.py`, `init_gui.py`, `typing.py` and `setup.py` are not part of this model: they are spreadsheet export, workbench registration, type aliases and packaging.
- The right end's offset `-pad_length` is not part of the memo key, and a reused right-end sketch is not moved. When the edge length changes, the right cutting sketch and the reused sketch keep their old position. The model reproduces this and proves nothing about it.

## Findings

| source | as written | input that shows it | evidently intended | confidence | as-written member | corrected member |
|---|---|---|---|---|---|---|
| freecad/easy_profile_frame/commands/ProfileFrameObject.py:142 | `Length = pad_length + ExtendedLengthL + ExtendedLengthR`, where `pad_length` already holds the extension of each end whose angle is 0 | a 100 mm edge, no chamfers, 5 mm extensions at both ends: the pad is 110 mm and `Length` reads 120 mm | the length of the stock: each end's extension counted once (110 mm) | high (not executed) | FrameGeometry.FrameLengthAsWrittenCountsTwice | FrameGeometry.FrameLengthCountsEachEndOnce |
| freecad/easy_profile_frame/commands/ProfileFrameObject.py:188-231 | `clean_chamfer` removes the cutting sketch but keeps `chamfer_sketch_cache[right]` | chamfer 45°, then 0°, then 45° again with the same profile: the key is still recorded, so the re-created cutting sketch is never drawn and the pocket cuts nothing | cleaning also forgets the memo slot, so the triangle is drawn again | high (not executed) | FrameGeometry.StaleMemoLeavesSketchEmpty | FrameGeometry.CleanStepCoherent |
| freecad/easy_profile_frame/commands/ProfileFrameObject.py:272 | `CopyObj(obj.getObject(obj.Sketch), obj)` uses the default `check_exist=True`, and the local sketch is a child of `obj` with that very label | any right-end chamfer: the lookup returns the left sketch itself, which is then attached to itself, moved to `-pad_length` and relabelled `_R` | a fresh copy of the local sketch (`check_exist=False`) for the right end | medium (not executed) | ProfileFrame.GetSketchRAsWrittenReturnsLeft | ProfileFrame.RightCopyKeepsLeft |
