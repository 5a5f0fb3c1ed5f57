# Limb rig builder, modelled in Dafny

This project models the limb-rig builder of `simpleLimb.py` (the function
`limb`) and of `simpleLimbClass.py` (the class `Limb`). Both take a side,
a part, three guide joints, three aliases, a pole-vector guide and options.
From these they build a three-joint limb rig in a Maya scene, in this order:

- three parallel joint chains (IK, FK and bind);
- FK and IK controls, each tagged with its role;
- a settings control that carries the `fkIk` switch;
- nine `blendColors` nodes that blend the IK and FK chains into the bind chain;
- optionally, an IK and an FK stretch network;
- a fixed group tree, and a `globalScale` attribute on its top group;
- colours by tag, locked channels, and a visibility switch between the FK and IK groups;
- a pole-vector guide curve;
- optionally, deletion of the guides.

The scene is the class `SceneGraph.Scene`. Its fields are maps and sets:

- node types;
- parents;
- connections between plugs;
- added attributes with their ranges;
- set values and values baked in by `makeIdentity`;
- locked plugs and hidden nodes;
- `controlType` tags and colours;
- constraints.

Every `cmds` call the builder makes is a small method on it (`CreateNode`,
`Parent`, `ConnectAttr`, `AddAttr`, `SetAttr`, `Lock`, `Hide`, `AddTag`,
`SetColor`, `Constrain`, `Delete`, ...). Each of these states the new scene
through the ghost snapshot `State()`.

Each build stage is a method over that scene. A stage states its result as
a step function of the scene before it (`Chained`, `FkControls`,
`IkControls`, `SettingsControlStep`, `Blended`, `IkStretchStep`,
`FkStretches`, `OrganizeStep`, `GlobalScaleStep`, `FinalizeStep`). Lemmas
beside each step function prove what the source promises of that stage:

- which nodes exist;
- who is parented under whom;
- which plugs drive which;
- which attributes are added, and with what range;
- what is locked and what is hidden.

Both copies of the builder share the stage methods:

- `SimpleLimb.Limb` runs them in the order of `limb`.
- `SimpleLimbClass.Limb.BuildLimb` runs them in the order of `build_limb`, which creates the IK handle after the blend nodes. It keeps what it made in the object's fields.

Maya renames a node whose requested name is taken. `CreateNode` models
this: it always returns a fresh name, and that name is the requested one
whenever the requested one was free. Every stage therefore promises its
names as "the requested name whenever it was free" (`NamedAsRequested`) and
"all new" (`FreshNames`).

The arithmetic the utility nodes perform is stated over `real` in
`Network`. It covers the stretch ratio, the segment scale, the FK offset,
global-scale compensation, the blend and the visibility reverse.

## Model

| member | source | states |
|---|---|---|
| Pipeline.Validate | simpleLimbClass.py:31-42 | succeeds exactly when there are three guides, three aliases, a non-empty pole vector and two valid axis labels; otherwise it reports the first failing check, in the source's order (guides, aliases, pole vector, primary axis, up axis); the function version repeats this code at simpleLimb.py:13-23 |
| Pipeline.ValidatedLabels | simpleLimbClass.py:41-42 | once the checks pass, both axis labels are non-empty and end in X, Y or Z, and the guide and alias counts are three |
| Pipeline.ControlSize | simpleLimbClass.py:51-52 | the control size is a fifth of the start-to-end span, so for a positive span it is positive and smaller than the span |
| SimpleLimbClass.Limb.New | simpleLimbClass.py:8-42 | construction fails, with the error `Validate` reports, exactly when a check fails; on success the object keeps every argument unchanged and has passed the checks |
| SimpleLimbClass.Limb.constructor | simpleLimbClass.py:18-42 | stores the arguments and the two axis vectors that `define_axis` gives for them |
| SimpleLimbClass.Limb.BuildLimb | simpleLimbClass.py:44-79 | the scene goes through the chains, FK controls, IK controls, settings control, blend, IK handle, stretch, hierarchy, global scale and finalize steps in `build_limb`'s order; the fields name what was made, the control size is a fifth of the span, and `noXformList` is the IK handle followed by the measure locators exactly when stretch was added |
| SimpleLimbClass.ClassHead | simpleLimbClass.py:44-68 | the first part of `build_limb`: chains, FK controls, IK controls, settings control and blend, then the IK handle created and constrained after the blend nodes |
| SimpleLimbClass.Limb.BuildHead | simpleLimbClass.py:46-68 | runs that first part and leaves its chains, controls, blend nodes and IK handle in the object's fields |
| SimpleLimbClass.Limb.StoreHead | simpleLimbClass.py:46-57 | sets exactly the fields the first part assigns and leaves the scene unchanged |
| SimpleLimbClass.Limb.BuildTail | simpleLimbClass.py:71-79 | the stretch, hierarchy, global-scale and finalize steps from the scene the first part left; `stretch`, `groups` and `noXformList` record what they made |
| SimpleLimbClass.Limb.StoreTail | simpleLimbClass.py:71-73 | `no_xform_list` starts as the IK handle and gains the two measure locators only when stretch was added (`self.no_xform_list +=` at line 246) |
| SimpleLimb.Limb | simpleLimb.py:8-205 | when a check fails the scene is untouched and the error is returned; otherwise the scene goes through every step of `limb` in its order, from the chains through guide removal |
| SimpleLimb.BuildHead | simpleLimb.py:29-127 | the part of `limb` before the stretch: chains, FK controls, IK controls, IK handle, settings control and blend, in that order |
| Pipeline.MakeChains | simpleLimb.py:29-31 | the IK, FK and bind chains, in that order, each three new joints |
| Pipeline.MakeFkControls | simpleLimb.py:36-57 | three distinct new FK controls with their offset groups; the controls carry no added attributes yet |
| Pipeline.MakeIkControls | simpleLimb.py:59-93 | the world, local, pole-vector and base IK controls, named as requested whenever those names were free |
| Pipeline.MakeHandle | simpleLimb.py:95-100 | a new `{base}_IKH` handle (when that name is free), parent-constrained to the local control and pole-vector-constrained to the PV control |
| Pipeline.MakeSettings | simpleLimb.py:102-124 | a new settings control `{base}_settings_CTRL` with a distinct offset group |
| Pipeline.MakeBlend | simpleLimb.py:127 | the nine blend nodes, all new |
| Pipeline.StretchIk | simpleLimb.py:131-135 | the IK stretch network, whose summary gives the two measure locators, `length_total` = length_a + length_b, the MDN and the CND |
| Pipeline.MakeStretch | simpleLimb.py:129-135 | the IK stretch followed by the FK stretch, which stretches every FK control but the last |
| Pipeline.StretchPhase | simpleLimb.py:129-135 | the stretch is built only when `add_stretch` is set; otherwise the scene is unchanged and `no_xform_list` holds only the IK handle |
| Pipeline.FileRig | simpleLimb.py:137-154 | builds the group tree and files the rig parts under it, with the `no_xform_list` under the noXform group |
| Pipeline.FileAndScale | simpleLimb.py:137-167 | the hierarchy step, then the global-scale step |
| Pipeline.FileAndFinalize | simpleLimb.py:137-205 | hierarchy, global scale and finalize in order; the guides are gone afterwards exactly when `remove_guides` is set, and otherwise every earlier node survives |
| Pipeline.FinishRig | simpleLimb.py:129-205 | everything after the blend: stretch, hierarchy, global scale and finalize, in order |
| Axis.DefineAxis | simpleLimbClass.py:212-224 | a last character of X, Y or Z selects (1,0,0), (0,1,0) or (0,0,1), negated when the label contains `-` anywhere; any other last character, or an empty label, is an error; the function version repeats this code at simpleLimb.py:378-390 |
| Axis.MinusNegates | simpleLimbClass.py:222-223 | prefixing `-` to a label without one negates its vector and keeps an invalid label invalid |
| Axis.AxisDependsOnLetterAndSign | simpleLimbClass.py:213-224 | the vector depends only on the last character and on whether a `-` occurs |
| Axis.DistinctLabelsDistinctVectors | simpleLimbClass.py:213-224 | labels that differ in letter or in sign give different vectors |
| Names.ReplaceAllAbsent | simpleLimbClass.py:196 | `str.replace` leaves a string without the pattern unchanged |
| Names.ReplaceAllSuffix | simpleLimbClass.py:196 | when the pattern occurs only as the suffix, `replace` swaps just that suffix |
| Names.Upper | simpleLimbClass.py:347 | `upper()` keeps the length and the non-letters, upper-cases each ASCII letter, and leaves no lower-case ASCII letter |
| Names.TitleFrom | simpleLimbClass.py:274-275 | `title()` keeps the length and every non-letter, lower-cases a letter that follows a letter and upper-cases any other letter (ASCII) |
| Names.TitleFromIdempotent | simpleLimbClass.py:274-275 | title-casing twice is the same as title-casing once, from any starting state |
| Names.TitleIdempotent | simpleLimbClass.py:274-275 | `title()` is idempotent |
| Names.JointNames | simpleLimbClass.py:186 | one name per alias, each `{side}_{alias}_{suffix}_JNT` |
| Names.FkCtrlNames | simpleLimbClass.py:86-87 | one name per alias, each `{side}_{alias}_FK_CTRL` |
| Names.OffsetNameInjective | simpleLimbClass.py:333 | different controls have different `_OFF_GRP` group names |
| Names.CtrlNameNotOffsetName | simpleLimbClass.py:87 | an FK control name is never an offset-group name |
| Names.JointNameInjective | simpleLimbClass.py:186 | distinct aliases give distinct joint names for one side and suffix; the part does not enter the name |
| Names.BlendNameOfBindJoint | simpleLimbClass.py:196 | when `bind_JNT` occurs only as the suffix, a bind joint's blend node is `{side}_{alias}_{attr}_BCN` |
| Names.FkStretchMdlNameOfControl | simpleLimbClass.py:309 | an FK control's stretch node is `{side}_{alias}_FK__stretch_MDL`, with the double underscore the replacement produces |
| Names.OffsetLocNameOfJoint | simpleLimbClass.py:310-311 | an FK joint's offset locator is `{side}_{alias}_FK_OFF_LOC` |
| Common.StepwiseNames | simpleLimbClass.py:337-347 | names created one after another, each new when made and each the requested one when free, are all new together and named as requested |
| Common.AllFreeNamesKept | simpleLimbClass.py:337-347 | when every requested name is distinct and free, every node gets exactly the name asked for |
| SceneGraph.Scene.CreateNode | simpleLimbClass.py:195-196 | the node gets a name that was not taken, and that name is the requested one whenever the requested one was free; only that node is added |
| SceneGraph.Scene.Parent | simpleLimbClass.py:91 | re-parents one node and changes nothing else |
| SceneGraph.Scene.ParentAll | simpleLimbClass.py:349-350 | re-parents every listed node under the same parent |
| SceneGraph.Scene.ConnectAttr | simpleLimbClass.py:197 | adds exactly one connection |
| SceneGraph.Scene.AddAttr | simpleLimbClass.py:176-177 | adds one attribute with its min, max and default, on a node that does not have it yet |
| SceneGraph.Scene.SetAttr | simpleLimbClass.py:263 | sets one plug's value |
| SceneGraph.Scene.Lock | simpleLimbClass.py:433-436 | adds one plug to the locked set |
| SceneGraph.Scene.Hide | simpleLimbClass.py:361-362 | adds one node to the hidden set |
| SceneGraph.Scene.AddTag | simpleLimbClass.py:226-228 | gives an untagged node its `controlType` tag |
| SceneGraph.Scene.Delete | simpleLimbClass.py:420-421 | removes the targets and everything below them, with their parents, tags, connections, attributes and constraints |
| SceneGraph.Deleted | simpleLimbClass.py:420-421 | deletion keeps the scene well-formed |
| SceneGraph.OutsideSurvives | simpleLimbClass.py:420-421 | deleting nodes that existed before the build removes only such nodes, never a node the build made |
| SceneGraph.OutsideNotBelow | simpleLimbClass.py:420-421 | a node the build made is never below a pre-existing node |
| Chains.CreateChain | simpleLimbClass.py:179-189 | one new joint per guide and alias pair (as many as the shorter list), named `{side}_{alias}_{suffix}_JNT` whenever that name was free, parented as `ChainLinks` says; the function version repeats this code at simpleLimb.py:364-375 |
| Chains.AddJoint | simpleLimbClass.py:186 | one new joint, under the given parent or unparented |
| Chains.ChainLinksOfDistinctGuides | simpleLimbClass.py:182-185 | with distinct guides, the first joint has no parent and each later joint's parent is the previous joint |
| Chains.RepeatedFirstGuideRestarts | simpleLimbClass.py:182-183 | a guide equal to the first guide makes its joint unparented again, because the first joint is found by comparing names |
| Chains.BlendChains | simpleLimbClass.py:191-201 | three new blend nodes per joint (nine for three chains), each named from its bind joint with `bind_JNT` replaced by `{attr}_BCN` whenever that name was free; the function version repeats this code at simpleLimb.py:230-240 |
| Chains.AddBlendNode | simpleLimbClass.py:195-201 | one new blend node with its four connections |
| Chains.ConnectBlendNode | simpleLimbClass.py:197-201 | IK channel to color1, FK channel to color2, `{base}_settings_CTRL.fkIk` to blender, output to the bind joint's channel |
| Chains.BlendEdgesContain | simpleLimbClass.py:193-201 | node j of the blend network is wired for joint j div 3 and channel j mod 3 (translate, rotate, scale) |
| Chains.BlendRequestsAt | simpleLimbClass.py:193-196 | the j-th requested blend name is the bind name of joint j div 3 for channel j mod 3 |
| Chains.NineBlendNodes | simpleLimbClass.py:193-196 | nine distinct blend nodes |
| Chains.SlotOf | simpleLimbClass.py:193-194 | the outer loop runs over joints and the inner loop over the three channels |
| Controls.TagControl | simpleLimbClass.py:226-228 | the control gets the `controlType` tag and nothing else changes |
| Controls.AlignLras | simpleLimbClass.py:94-95 | the control gains a new offset group `{ctrl}_OFF_GRP` (when free) that takes the control's place under its parent |
| Controls.CreateFkControls | simpleLimbClass.py:81-104 | one new control and offset group per alias; when those names are free they are `{side}_{alias}_FK_CTRL` and its `_OFF_GRP` |
| Controls.AddFkControl | simpleLimbClass.py:86-103 | one FK control, tagged `{base}_fk`, placed under the previous control, aligned, point-constrained to its joint and driving the joint's rotate |
| Controls.FkControlsNodes | simpleLimbClass.py:86-95 | the FK controls are curves and their offsets are groups, and nothing else is added |
| Controls.FkControlsAttrs | simpleLimbClass.py:81-104 | creating the FK controls adds no attributes |
| Controls.FkControlsHierarchy | simpleLimbClass.py:89-100 | each control sits under its own offset group, each later offset group under the previous control, and the first offset group (`fk_top_grp`) keeps the first control's old place |
| Controls.FkControlsDrive | simpleLimbClass.py:88-103 | every FK control is tagged `{base}_fk`, point-constrains FK joint i and drives its `.rotate`, and nothing else changes |
| Controls.CreateIkControls | simpleLimbClass.py:106-150 | the world, local (with offset), pole-vector and base controls, all new, named as requested when those names were free |
| Controls.AddWorldControl | simpleLimbClass.py:108-115 | the world control, rotated 45 on the primary axis, with its translate, rotate and scale then baked in by `a_to_b(freeze=True)` (makeIdentity), tagged `{base}_primary` |
| Controls.AddLocalControl | simpleLimbClass.py:118-126 | the local control with its 45-degree rotation baked in, aligned under a new offset group that goes under the world control, tagged `{base}_secondary` |
| Controls.AddPvControl | simpleLimbClass.py:132-138 | the pole-vector control scaled to a quarter of r, with its translate, rotate and scale then baked in by `a_to_b(freeze=True)`, tagged `{base}_pv` |
| Controls.AddBaseControl | simpleLimbClass.py:141-150 | the base control `{side}_{alias0}_IK_CTRL`, rotated 45 with its translate, rotate and scale then baked in by `a_to_b(freeze=True)`, parent-constraining the first IK joint with its offset kept, tagged `{base}_primary` |
| Controls.IkNamesFresh | simpleLimbClass.py:108-150 | the five names created in order are all new, and equal to the requested ones when those were free |
| Controls.IkControlsNodes | simpleLimbClass.py:108-150 | exactly the five IK nodes are added, with their types, and the base control's constraint |
| Controls.IkControlsTagged | simpleLimbClass.py:115-150 | world and base tagged primary, local tagged secondary, pole vector tagged pv, and no other tag changes |
| Controls.IkControlsHierarchy | simpleLimbClass.py:123-125 | the local control sits under its offset group and the offset under the world control; world, PV and base stay unparented |
| Controls.IkControlsChannels | simpleLimbClass.py:112-148 | the 45-degree turns of the world, local and base controls on the primary axis and the PV's quarter-r scale all end up baked in (frozen); the baked channels (world, PV and base translate, rotate and scale, local rotate) read their defaults, and every other channel keeps its value |
| Controls.CreateIkHandle | simpleLimbClass.py:63-68 | a new `{base}_IKH` (when free) from the first to the last IK joint, parent-constrained to the local control with its offset kept, with a pole-vector constraint from the PV control |
| Settings.CreateSettingsControl | simpleLimbClass.py:152-177 | a new settings control and offset group, tagged primary, scaled and pushed along the up axis with those values baked in, constrained to the last bind joint, with `fkIk` in [0,1] defaulting to 1 |
| Settings.AddSettingsCurve | simpleLimbClass.py:160-164 | the curve `{base}_settings_CTRL` (when free), tagged primary, under a new offset group |
| Settings.ShapeSettingsControl | simpleLimbClass.py:165-177 | scale and up-axis offset baked into the control, the parent constraint and the `fkIk` attribute |
| Settings.SettingsControlShape | simpleLimbClass.py:152-177 | the settings control's nodes, parent, tag, `fkIk` range, the baked offset on the up axis's letter, the quarter-r scale, and the bind constraint |
| Settings.UpOffsetAlongUpAxis | simpleLimbClass.py:167-172 | the offset is +1.5r when the up vector points positive and -1.5r when it points negative, provided a `-` can only lead the label |
| Settings.LeadingMinusSign | simpleLimbClass.py:167 | for such labels, testing the first character agrees with `define_axis`'s test for `-` anywhere |
| Stretch.AddIkStretch | simpleLimbClass.py:236-301 | the eight stretch nodes, all new and named as requested when free; `length_total` = length_a + length_b; the scene becomes `IkStretchStep`; the function version repeats this code at simpleLimb.py:243-311 |
| Stretch.IkStretchAttrs | simpleLimbClass.py:272-279 | the world control gains exactly `stretch` in [0,1] defaulting to 1, and `up{Part}`/`lo{Part}` with min 0.001 and default 1 |
| Stretch.IkStretchWiring | simpleLimbClass.py:254-301 | every stretch node receives exactly its listed inputs, the MDN divides by `length_total`, the CND tests greater-or-equal against it, and each IK joint gains one input, on its primary-axis scale |
| Stretch.MeasureInto | simpleLimbClass.py:256-267 | the distance node reads the two locators' world matrices, the MDN reads the distance, and the CND reads the distance and the MDN's output |
| Stretch.SegmentInto | simpleLimbClass.py:280-296 | the BTA blends 1 and the CND output by `stretch`, and each PMA sums its weight with the BTA output |
| Stretch.JointsInto | simpleLimbClass.py:298-301 | the upper PMA drives only the first IK joint's primary-axis scale and the lower PMA only the second's |
| Stretch.IkStretchNamesDistinct | simpleLimbClass.py:238-288 | the eight stretch nodes are new and pairwise distinct |
| Stretch.IkStretchNamed | simpleLimbClass.py:238-288 | the eight names created in order are new and are the requested ones when those were free |
| Stretch.WeightNamesDiffer | simpleLimbClass.py:274-275 | the upper and lower weight attributes never clash with each other or with `stretch` |
| Stretch.AddFkStretch | simpleLimbClass.py:303-333 | one link per FK control; the last control gets none; the new nodes are all new and named as requested when free; the function version repeats this code at simpleLimb.py:314-340 |
| Stretch.AddFkStretchLink | simpleLimbClass.py:306-333 | the control gains `stretch` (min 0.001, default 1); the MDL scales the offset by it into the locator's primary-axis translate; `stretch` drives the FK joint's primary-axis scale |
| Stretch.DriveNext | simpleLimbClass.py:323-333 | with `offsetParentMatrix` the locator's matrix drives the next control directly; otherwise a new decomposeMatrix drives the next offset group's translate, rotate and scale |
| Stretch.StretchedAllButLast | simpleLimbClass.py:305 | with distinct controls, `ctrl == fk_ctrls[-1]` holds exactly for the last index |
| Stretch.FkStretchesWired | simpleLimbClass.py:306-333 | after the whole loop, every stretched control's link is still wired as it was built |
| Stretch.WiredStep | simpleLimbClass.py:306-333 | one link, as built, is wired |
| Stretch.WiredKept | simpleLimbClass.py:306-333 | building a later link leaves an earlier link's wiring intact |
| Stretch.FkStretchesAttrs | simpleLimbClass.py:306-307 | the only attributes added are the `stretch` attributes of the stretched controls |
| Stretch.LastControlNotStretched | simpleLimbClass.py:305 | the last FK control never gets a `stretch` attribute |
| Stretch.AllButLastStretched | simpleLimbClass.py:305-307 | every other FK control does |
| Network.BlendFollowsSwitch | simpleLimbClass.py:197-201 | with `fkIk` = 1 the bind channel follows IK, with 0 it follows FK, and in between it lies between the two |
| Network.StretchRatio | simpleLimbClass.py:261-269 | when the distance reaches the scaled rest length, the ratio is at least 1 and ratio times that length is the distance; otherwise it is the condition's false value |
| Network.SegmentScale | simpleLimbClass.py:280-297 | with `stretch` off a segment's scale is its weight; with it on, it is weight + ratio - 1 |
| Network.StretchedChainSpansDistance | simpleLimbClass.py:261-301 | with unit weights and stretch on, the two scaled segments exactly span the measured distance |
| Network.GlobalScaleInvariant | simpleLimbClass.py:373-376 | scaling both the rig and the measured distance by `globalScale` leaves the stretch ratio unchanged |
| Network.ScaledLength | simpleLimbClass.py:373 | `length_total` times `globalScale` is positive |
| Network.FkOffset | simpleLimbClass.py:316-319 | at `stretch` 1 the locator keeps its original offset, and a positive offset stays positive |
| Network.FkStretchLinear | simpleLimbClass.py:316-319 | the driven offset is linear in `stretch` |
| Network.VisibilityExclusive | simpleLimbClass.py:407-413 | the FK and IK group visibilities always sum to 1, so exactly one group shows at 0 and at 1 |
| Hierarchy.OrganizeHierarchy | simpleLimbClass.py:335-362 | six new groups named as requested when free, the rig parts filed under them, and four nodes hidden |
| Hierarchy.MakeGroups | simpleLimbClass.py:337-347 | the six groups, the last named by the upper-cased base name |
| Hierarchy.GroupsNamed | simpleLimbClass.py:337-347 | the six groups are new and are the requested names whenever those were free |
| Hierarchy.FileParts | simpleLimbClass.py:349-362 | the parent map becomes the organised one and exactly the noXform group and the three chain roots are added to the hidden set |
| Hierarchy.OrganizedUnderAll | simpleLimbClass.py:349-357 | the skeleton and rig groups sit under the top group; the FK, IK and noXform groups under the rig group; every rig part under one of the groups; everything within three levels of the top group |
| Hierarchy.GroupsPlaced | simpleLimbClass.py:354-357 | the group tree alone, with the top group unparented |
| Hierarchy.PartFiled | simpleLimbClass.py:349-356 | every rig part ends up directly under one of the five inner groups, even if some parts coincide |
| Hierarchy.PartsFiledInto | simpleLimbClass.py:349-356 | with the groups and parts distinct, world, PV and base go under the IK group, `fk_top_grp` under the FK group, the bind root under the skeleton group, the `no_xform_list` under the noXform group, and the FK root, IK root and settings offset under the rig group |
| Hierarchy.OrganizeHides | simpleLimbClass.py:361-362 | the nodes newly hidden are exactly the noXform group and the FK, IK and bind roots |
| Hierarchy.AddGlobalScale | simpleLimbClass.py:364-376 | always adds `globalScale`; creates a new `{base}_globalScale_MDL` (so named when free) exactly when stretch was added |
| Hierarchy.GlobalScaleWired | simpleLimb.py:156-167 | `globalScale` (min 0.001, default 1) drives the top group's scale X, Y and Z; with stretch, `length_total` times `globalScale` feeds both the MDN divisor and the CND second term; without it, no node is added |
| Finalize.FinalizeRig | simpleLimbClass.py:378-421 | colours, locks, the visibility switch and the guide, then guide deletion only when `remove_guides` is set; the nodes the build made all survive |
| Finalize.FinalizeBody | simpleLimbClass.py:380-417 | everything `finalize` does before the optional deletion, in order |
| Finalize.StyleControls | simpleLimbClass.py:380-404 | the colours as corrected and the lock set of all the limb's controls, with no node added |
| Finalize.ColorsInUse | simpleLimbClass.py:380-384 | a given dictionary is used as is; an empty one selects the four default role colours |
| Finalize.DefaultColorsApplied | simpleLimb.py:170-184 | with the default dictionary, this limb's primary, pv, fk and secondary controls get yellow, cyan, blue and light blue |
| Finalize.ColorControls | simpleLimbClass.py:386-395 | the corrected colour loop: only the colours of listed controls whose tag contains the base name and is a key of the dictionary change |
| Finalize.ColorsAppliedExact | simpleLimbClass.py:386-395 | a listed control whose tag contains the base name and is a key gets that key's colour; every other control keeps its colour |
| Finalize.AsWrittenAgrees | simpleLimbClass.py:386-395 | whenever the source's loop completes, the corrected loop colours the same controls the same way; the source raises exactly when a matching tag is not a key |
| Finalize.SecondLimbRaises | simpleLimb.py:176-184 | a control tagged `L_arm2_primary` makes building `L_arm` with the default colours raise, while the corrected loop leaves it alone |
| Finalize.LockAndHide | simpleLimbClass.py:423-436 | locks exactly the channels `Locks(nodes, LockList(attrs))` and nothing else changes; the function version repeats this code at simpleLimb.py:348-361 |
| Finalize.LockList | simpleLimbClass.py:424-425 | an empty attribute list means translate, rotate, scale and visibility; any other list is kept |
| Finalize.LocksExact | simpleLimbClass.py:430-436 | a plug is locked exactly when it is a channel of some listed attribute on some listed node |
| Finalize.LockNode | simpleLimbClass.py:431-436 | locks exactly the channels of one node's listed attributes |
| Finalize.LockChannel | simpleLimbClass.py:432-436 | translate, rotate and scale lock their X, Y and Z plugs; any other attribute locks itself |
| Finalize.LockControls | simpleLimbClass.py:397-404 | the four call sites lock exactly `FinalizeLocks` |
| Finalize.FkControlLocks | simpleLimbClass.py:398-399 | FK controls lock translate and scale, and rotate stays free |
| Finalize.IkControlLocks | simpleLimbClass.py:400-401 | world, local and base controls lock scale, and translate and rotate stay free |
| Finalize.PvControlLocks | simpleLimbClass.py:402-403 | the PV control locks rotate, and translate stays free |
| Finalize.SettingsControlLocks | simpleLimbClass.py:404 | the settings control locks translate, rotate, scale and visibility (the default list), and its `fkIk` stays free |
| Finalize.AddVisSwitch | simpleLimbClass.py:406-413 | a new `{base}_fkIk_vis_REV` (when free) and the visibility wiring |
| Finalize.VisWired | simpleLimbClass.py:407-413 | `fkIk` drives the IK group's visibility directly and the FK group's through the reverse node, which has no other connections |
| Finalize.AddGuide | simpleLimbClass.py:438-452 | the guide curve and two clusters, all new and named as requested when free, point-constrained to the two ends, templated and not inheriting transforms |
| Finalize.GuideFollows | simpleLimbClass.py:444-450 | the curve's cluster handles follow the PV control and the middle IK joint, the curve is templated, and `inheritsTransform` is off |
| Finalize.GuideNamed | simpleLimbClass.py:444-446 | the five guide nodes are new and are the requested names whenever those were free |
| Finalize.FileGuide | simpleLimbClass.py:415-417 | the cluster handles go under the noXform group and the curve under the IK group |
| Finalize.GuidesRemoved | simpleLimbClass.py:419-421 | deleting the guides removes every guide and keeps every node the build made |

## Left out

- Geometry is out of scope: `distance_between`, `nmUtil.a_to_b`, `nmUtil.transfer_pivots`, `xform` queries, curve points, radii, normals, degrees and sections. The span, the two segment lengths and the FK locator offsets are inputs (`span`, `lengthA`, `lengthB`, `fkOffsets`). Where `a_to_b` moves a node and where `transfer_pivots` puts pivots are geometry, so the model leaves positions and pivots out. The `freeze=True` of `a_to_b` is kept: it is modelled as `makeIdentity` on translate, rotate and scale (`SceneState.WithIdentity` of `TrsPlugs`). On the freshly created joints (`cmds.joint`, simpleLimbClass.py:186) no channel has been set yet, so the bake at simpleLimbClass.py:187 changes nothing the model records.
- `nmUtil.align_lras` is not part of this model's sources. It is modelled by its effect: a new offset group named `{ctrl}_OFF_GRP` takes the control's place under its parent and holds the control. The name is the one `simpleLimbClass.py:333` relies on.
- Constraints are recorded as relations and not evaluated. The same goes for the RP solver, the end effector the IK handle creates, and the cluster deformers.
- `Network.StretchRatio`: the condition node's `colorIfFalseR` is never set by the source, so it stays a parameter (`ifFalse`).
- SceneGraph.Scene.CreateNode: when the requested name is taken, the name Maya picks instead is only known to be fresh. Which name it is (Maya's numbering) is not modelled.
- The `offsetParentMatrix` test (`cmds.objExists`) depends on the Maya version. It is the boolean input `opm`, the same for every control.
- Colour overrides are one colour per node. `overrideEnabled` and `overrideRGBColors` are not separate plugs, and RGB values are opaque triples.
- The `ls` of `{side}*.controlType` is a filter over the tag map. Its order does not matter, because each control's colour is set independently.
- `keyable=False` on locked channels and `keyable=True` on added attributes are not modelled.
- `lock_and_hide`'s wrapping of a single node in a list happens at the call sites: the model's callers pass one-element sequences.
- Finalize.ColorControls: models the corrected loop (see Findings). The source's loop is `Finalize.ColorsAsWritten`.
- SimpleLimb.Limb: `limb` returns nothing. The model returns the names its locals hold, so that the contracts can speak about them.
- SimpleLimb.Limb and SimpleLimbClass.Limb.BuildLimb: they require the guide joints and the pole vector to exist in the scene. The source would fail inside `a_to_b` otherwise, and that helper is not part of this model.
- SimpleLimb.Limb and SimpleLimbClass.Limb.BuildLimb: `joint_list=None` or `alias_list=None` (the defaults) make `len` raise `TypeError` in the source. The model takes sequences, so this case does not arise.
- A missing pole vector (`None` or an empty string) is the empty string.
- SimpleLimbClass.Limb.BuildLimb: calling `build_limb` twice on one object is not modelled.
- SimpleLimbClass.Limb: `self.color_dict` is replaced by the default dictionary inside `finalize`. The model keeps the argument and selects the colours with `ColorsInUse`.
- SimpleLimbClass.Limb: the blend nodes and the IK handle are locals of `build_limb` in the source. They are fields here so that the contracts can name them.
- Stretch.AddFkStretch: it requires the FK controls to be distinct. The builder always passes new controls, and with duplicates `ctrl == fk_ctrls[-1]` would skip more than the last one.
- Controls.TagControl and SceneGraph.Scene.AddAttr: they require that the attribute does not exist yet. `addAttr` raises otherwise.
- SceneGraph.Scene.Delete: it deletes a node's DAG descendants with a depth bound equal to the number of nodes (a `fuel` argument of `AncestorIn`). That bound covers every parent chain in an acyclic parent map.
- `reload(nmUtil)` and the imports are left out.
- SceneGraph.Scene.ConnectAttr, Chains.BlendChains: `connectAttr` raises when either attribute does not exist, and the model does not check that. It requires only that both nodes exist. `blend_chains` connects the literal `{base}_settings_CTRL.fkIk` (simpleLimbClass.py:199, simpleLimb.py:238), not the settings control the build made. If an older node already holds that name without an `fkIk` attribute, the source raises there, but the model's `Blended` adds the nine connections and the build succeeds. If the older node does have `fkIk`, the source and the model agree: the nine blend nodes follow the older control's switch, not the new one's.
- Controls.AddWorldControl, Controls.AddPvControl, Controls.AddBaseControl, Controls.IkControlsChannels: the body of `nmUtil.a_to_b` is not part of this model. Its `freeze=True` is taken to bake translate, rotate and scale, as the flag says. The positions it snaps the controls to are not modelled, so the bake records the 45-degree turns and the pole vector's scale but not the snapped translation.
- Names.Upper, Names.TitleFrom: case mapping covers ASCII letters only, since Maya node names are ASCII. Python's `upper()` and `title()` also map other Unicode letters.
- The UI scripts (`limbUI.py`, `limbUIClass.py`) are not part of this model.
- Neither version checks that the primary and up axes differ (`primary_axis='X'` with `up_axis='-X'` passes every check); the model follows the code.

## Findings

| source | as written | input that shows it | evidently intended | confidence | as-written member | corrected member |
|---|---|---|---|---|---|---|
| simpleLimb.py:176-184 | every listed control whose `controlType` contains `base_name` as a substring is looked up in `color_dict` (the same loop is at simpleLimbClass.py:386-395) | a scene that already holds a limb `L_arm2` (its world control is tagged `L_arm2_primary`) while `L_arm` is built with the default colours: `'L_arm' in 'L_arm2_primary'` holds, the tag is not a key, and the lookup raises `KeyError` | colour only this limb's controls, i.e. those whose tag is a key of the dictionary | not executed | Finalize.SecondLimbRaises | Finalize.ColorsAppliedExact |
