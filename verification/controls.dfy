/** The animator-facing controls: the FK controls, the IK controls, the
    settings control, and the IK handle they drive. */
module Controls {
  import opened Common
  import opened Names
  import opened SceneGraph
  import opened Axis

  /** `tag_control`: the control's `controlType` attribute holds `tag`. */
  method TagControl(scene: Scene, ctrl: string, tag: string)
    requires scene.Valid()
    requires ctrl in scene.nodes && ctrl !in scene.tags
    modifies scene
    ensures scene.Valid()
    ensures scene.State() == old(scene.State()).WithTag(ctrl, tag)
  {
    scene.AddTag(ctrl, tag);
  }

  // ---------------------------------------------------------------------
  // align_lras
  // ---------------------------------------------------------------------

  /** What the alignment helper does to the hierarchy: a new offset group
      `off` takes the control's place under its parent, and the control
      goes under the group. */
  function AlignedUnder(s: SceneState, ctrl: string, off: string): SceneState
  {
    var s1 := s.WithNode(off, Group);
    var s2 := if ctrl in s.parent then s1.WithParent(off, s.parent[ctrl]) else s1;
    s2.WithParent(ctrl, off)
  }

  /** `align_lras(sel=[ctrl, target])`, returning the offset group
      `{ctrl}_OFF_GRP`.  The snapping to the target is geometry and is not
      part of this model. */
  method AlignLras(scene: Scene, ghost k: set<string>, ctrl: string) returns (off: string)
    requires Extends(scene.State(), k)
    requires ctrl in scene.nodes && ctrl !in k
    modifies scene
    ensures Extends(scene.State(), k)
    ensures off !in old(scene.nodes) && OffsetName(ctrl) in scene.nodes
    ensures OffsetName(ctrl) !in old(scene.nodes) ==> off == OffsetName(ctrl)
    ensures scene.State() == AlignedUnder(old(scene.State()), ctrl, off)
  {
    off := scene.CreateNode(OffsetName(ctrl), Group);
    if ctrl in scene.parent {
      RootedInUpdate(scene.parent, k, off, scene.parent[ctrl]);
      scene.Parent(off, scene.parent[ctrl]);
    }
    RootedInUpdate(scene.parent, k, ctrl, off);
    scene.Parent(ctrl, off);
  }

  // ---------------------------------------------------------------------
  // create_fk_controls
  // ---------------------------------------------------------------------

  /** One pass of the FK control loop: the control for `joint`, tagged
      `{base}_fk`, under the previous control `par` if there is one, then
      aligned, point-constrained to the joint and driving its rotation. */
  function FkControlStep(s: SceneState, base: string, joint: string, ctrl: string, off: string, par: Option<string>): SceneState
  {
    var p1 := if par.Some? then s.parent[ctrl := par.value] else s.parent;
    var p2 := if ctrl in p1 then p1[off := p1[ctrl]] else p1;
    s.(nodes := s.nodes[ctrl := Curve][off := Group],
       parent := p2[ctrl := off],
       tags := s.tags[ctrl := RoleTag(base, "fk")],
       constraints := s.constraints + {Constraint(PointConstraint, ctrl, joint, false)},
       connections := s.connections + {Connection(Plug(ctrl, "rotate"), Plug(joint, "rotate"))})
  }

  /** The scene after the FK control loop has made the controls `ctrls`
      with the offset groups `offs`. */
  ghost function FkControls(s0: SceneState, base: string, fk: seq<string>, ctrls: seq<string>, offs: seq<string>): SceneState
    requires |ctrls| == |offs| <= |fk|
    decreases |ctrls|
  {
    if ctrls == [] then s0
    else
      var i := |ctrls| - 1;
      FkControlStep(FkControls(s0, base, fk, ctrls[..i], offs[..i]), base, fk[i], ctrls[i], offs[i],
                    if i == 0 then None else Some(ctrls[i - 1]))
  }

  lemma FkControlsSnoc(s0: SceneState, base: string, fk: seq<string>, ctrls: seq<string>, offs: seq<string>, c: string, o: string)
    requires |ctrls| == |offs| < |fk|
    ensures FkControls(s0, base, fk, ctrls + [c], offs + [o])
         == FkControlStep(FkControls(s0, base, fk, ctrls, offs), base, fk[|ctrls|], c, o,
                          if ctrls == [] then None else Some(ctrls[|ctrls| - 1]))
  {
    assert (ctrls + [c])[..|ctrls|] == ctrls;
    assert (offs + [o])[..|offs|] == offs;
  }

  // The FK controls in closed form: what the loop has built, stated per
  // control rather than pass by pass.

  /** Each control `ctrls[i]` is point-constrained to the FK joint `fk[i]`. */
  function PointConstraints(ctrls: seq<string>, fk: seq<string>): set<Constraint>
    requires |ctrls| <= |fk|
  {
    set i | 0 <= i < |ctrls| :: Constraint(PointConstraint, ctrls[i], fk[i], false)
  }

  /** Each control `ctrls[i]` drives the rotation of the FK joint `fk[i]`. */
  function RotateLinks(ctrls: seq<string>, fk: seq<string>): set<Connection>
    requires |ctrls| <= |fk|
  {
    set i | 0 <= i < |ctrls| :: Connection(Plug(ctrls[i], "rotate"), Plug(fk[i], "rotate"))
  }

  lemma {:induction false} FkControlsNodes(s0: SceneState, base: string, fk: seq<string>, ctrls: seq<string>, offs: seq<string>)
    requires |ctrls| == |offs| <= |fk|
    requires Elems(ctrls) !! Elems(offs)
    ensures FkControls(s0, base, fk, ctrls, offs).nodes == s0.nodes + NodesOf(ctrls, Curve) + NodesOf(offs, Group)
    decreases |ctrls|
  {
    if ctrls != [] {
      var n := |ctrls| - 1;
      var cs, os, c, o := ctrls[..n], offs[..n], ctrls[n], offs[n];
      assert ctrls == cs + [c] && offs == os + [o];
      ElemsSnoc(cs, c);
      ElemsSnoc(os, o);
      FkControlsNodes(s0, base, fk, cs, os);
      FkControlsSnoc(s0, base, fk, cs, os, c, o);
      NodesOfSnoc(cs, c, Curve);
      NodesOfSnoc(os, o, Group);
      var a, b, d := s0.nodes, NodesOf(cs, Curve), NodesOf(os, Group);
      MapUnionUpdate2(a, b, d, c, Curve, o, Group);
    } else {
      assert NodesOf(ctrls, Curve) == map[] && NodesOf(offs, Group) == map[];
    }
  }

  /** The FK loop adds no attribute: the controls get their `stretch`
      attribute only later. */
  lemma {:induction false} FkControlsAttrs(s0: SceneState, base: string, fk: seq<string>, ctrls: seq<string>, offs: seq<string>)
    requires |ctrls| == |offs| <= |fk|
    ensures FkControls(s0, base, fk, ctrls, offs).attrs == s0.attrs
    decreases |ctrls|
  {
    if ctrls != [] {
      var n := |ctrls| - 1;
      FkControlsAttrs(s0, base, fk, ctrls[..n], offs[..n]);
    }
  }

  /** The hierarchy edit of one pass, for a new control and group. */
  lemma FkControlStepParent(s: SceneState, base: string, joint: string, ctrl: string, off: string, par: Option<string>)
    ensures var p := FkControlStep(s, base, joint, ctrl, off, par).parent;
      ctrl !in s.parent && off !in s.parent && ctrl != off ==>
      && ctrl in p && p[ctrl] == off
      && (par.Some? ==> off in p && p[off] == par.value)
      && (par.None? ==> off !in p)
      && (forall k :: k in p && k != ctrl && k != off ==> k in s.parent && p[k] == s.parent[k])
      && (forall k :: k in s.parent ==> k in p)
  {
  }

  /** The FK control `ctrls[i]` hangs under its own offset group, and that
      group under the previous control, or under nothing for the first one
      (the FK top group). */
  ghost predicate FkLinkedAt(p: map<string, string>, ctrls: seq<string>, offs: seq<string>, i: nat)
    requires i < |ctrls| == |offs|
  {
    && ctrls[i] in p && p[ctrls[i]] == offs[i]
    && if i == 0 then offs[0] !in p else offs[i] in p && p[offs[i]] == ctrls[i - 1]
  }

  /** The map-level step of `FkControlsHierarchy`: `p0` is the hierarchy
      after all but the last control, `p` after the last. */
  lemma FkParentsSnoc(sp: map<string, string>, p0: map<string, string>, p: map<string, string>, ctrls: seq<string>, offs: seq<string>)
    requires |ctrls| == |offs| > 0
    requires FreshNames(ctrls, sp.Keys) && FreshNames(offs, sp.Keys) && Elems(ctrls) !! Elems(offs)
    requires var n := |ctrls| - 1;
      && (forall i :: 0 <= i < n ==> FkLinkedAt(p0, ctrls[..n], offs[..n], i))
      && (forall m :: m in sp ==> m in p0 && p0[m] == sp[m])
      && (forall m :: m in p0 ==> m in sp || m in Elems(ctrls[..n]) || m in Elems(offs[..n]))
    requires var n, c, o := |ctrls| - 1, ctrls[|ctrls| - 1], offs[|ctrls| - 1];
      c !in p0 && o !in p0 && c != o ==>
      && c in p && p[c] == o
      && (n == 0 ==> o !in p)
      && (n > 0 ==> o in p && p[o] == ctrls[n - 1])
      && (forall k :: k in p && k != c && k != o ==> k in p0 && p[k] == p0[k])
      && (forall k :: k in p0 ==> k in p)
    ensures forall i :: 0 <= i < |ctrls| ==> FkLinkedAt(p, ctrls, offs, i)
    ensures forall m :: m in sp ==> m in p && p[m] == sp[m]
    ensures forall m :: m in p ==> m in sp || m in Elems(ctrls) || m in Elems(offs)
  {
    var n := |ctrls| - 1;
    var c, o := ctrls[n], offs[n];
    LastPairNew(ctrls, offs);
    ElemsLast(ctrls);
    ElemsLast(offs);
    assert c !in p0 && o !in p0 by {
      assert c !in Elems(ctrls[..n]) && c !in Elems(offs[..n]);
      assert o !in Elems(ctrls[..n]) && o !in Elems(offs[..n]);
    }
    forall i | 0 <= i < |ctrls| ensures FkLinkedAt(p, ctrls, offs, i) {
      if i < n {
        assert FkLinkedAt(p0, ctrls[..n], offs[..n], i);
      }
    }
  }

  /** The FK controls form one chain of control, offset group, control,
      offset group, ..., and no other node moves. */
  lemma {:induction false} FkControlsHierarchy(s0: SceneState, base: string, fk: seq<string>, ctrls: seq<string>, offs: seq<string>)
    requires |ctrls| == |offs| <= |fk|
    requires FreshNames(ctrls, s0.parent.Keys) && FreshNames(offs, s0.parent.Keys) && Elems(ctrls) !! Elems(offs)
    ensures var p := FkControls(s0, base, fk, ctrls, offs).parent;
      && (forall i :: 0 <= i < |ctrls| ==> FkLinkedAt(p, ctrls, offs, i))
      && (forall n :: n in s0.parent ==> n in p && p[n] == s0.parent[n])
      && (forall n :: n in p ==> n in s0.parent || n in Elems(ctrls) || n in Elems(offs))
    decreases |ctrls|
  {
    if ctrls != [] {
      var n := |ctrls| - 1;
      ElemsLast(ctrls);
      ElemsLast(offs);
      FkControlsHierarchy(s0, base, fk, ctrls[..n], offs[..n]);
      var pre := FkControls(s0, base, fk, ctrls[..n], offs[..n]);
      FkControlStepParent(pre, base, fk[n], ctrls[n], offs[n], if n == 0 then None else Some(ctrls[n - 1]));
      FkParentsSnoc(s0.parent, pre.parent, FkControls(s0, base, fk, ctrls, offs).parent, ctrls, offs);
    } else {
      assert Elems(ctrls) == {} && Elems(offs) == {};
    }
  }

  lemma PointConstraintsLast(ctrls: seq<string>, fk: seq<string>)
    requires 0 < |ctrls| <= |fk|
    ensures var n := |ctrls| - 1;
      && PointConstraints(ctrls, fk) == PointConstraints(ctrls[..n], fk) + {Constraint(PointConstraint, ctrls[n], fk[n], false)}
      && RotateLinks(ctrls, fk) == RotateLinks(ctrls[..n], fk) + {Connection(Plug(ctrls[n], "rotate"), Plug(fk[n], "rotate"))}
  {
  }

  /** Every control carries the `{base}_fk` tag, is point-constrained to
      its FK joint and drives that joint's rotation; no other attribute,
      value, lock, colour or visibility changes. */
  lemma {:induction false} FkControlsDrive(s0: SceneState, base: string, fk: seq<string>, ctrls: seq<string>, offs: seq<string>)
    requires |ctrls| == |offs| <= |fk|
    ensures var s := FkControls(s0, base, fk, ctrls, offs);
      && s.tags == s0.tags + TagsOf(ctrls, RoleTag(base, "fk"))
      && s.constraints == s0.constraints + PointConstraints(ctrls, fk)
      && s.connections == s0.connections + RotateLinks(ctrls, fk)
      && s == s0.(nodes := s.nodes, parent := s.parent, tags := s.tags,
                  constraints := s.constraints, connections := s.connections)
    decreases |ctrls|
  {
    if ctrls != [] {
      var n := |ctrls| - 1;
      FkControlsDrive(s0, base, fk, ctrls[..n], offs[..n]);
      PointConstraintsLast(ctrls, fk);
      ByNameLast(ctrls, Curve, RoleTag(base, "fk"));
      MapUnionUpdate(s0.tags, TagsOf(ctrls[..n], RoleTag(base, "fk")), ctrls[n], RoleTag(base, "fk"));
    } else {
      assert TagsOf(ctrls, RoleTag(base, "fk")) == map[];
    }
  }

  /** One pass of the `create_fk_controls` loop. */
  method AddFkControl(scene: Scene, ghost k: set<string>, side: string, base: string, alias: string, joint: string, par: Option<string>)
    returns (ctrl: string, off: string)
    requires Extends(scene.State(), k)
    requires joint in scene.nodes
    requires par.Some? ==> par.value in scene.nodes && par.value !in k
    modifies scene
    ensures Extends(scene.State(), k)
    ensures ctrl !in old(scene.nodes) && off !in old(scene.nodes) && ctrl != off
    ensures FkCtrlName(side, alias) !in old(scene.nodes) ==> ctrl == FkCtrlName(side, alias)
    ensures OffsetName(ctrl) !in old(scene.nodes) ==> off == OffsetName(ctrl)
    ensures OffsetName(ctrl) in scene.nodes
    ensures scene.State() == FkControlStep(old(scene.State()), base, joint, ctrl, off, par)
  {
    ctrl := scene.CreateNode(FkCtrlName(side, alias), Curve);
    TagControl(scene, ctrl, RoleTag(base, "fk"));
    if par.Some? {
      RootedInUpdate(scene.parent, k, ctrl, par.value);
      scene.Parent(ctrl, par.value);
    }
    off := AlignLras(scene, k, ctrl);
    scene.Constrain(PointConstraint, ctrl, joint, false);
    scene.ConnectAttr(Plug(ctrl, "rotate"), Plug(joint, "rotate"));
  }

  /** The controls `names` and their offset groups can all be made under
    the names asked for. */
  ghost predicate OffsetNamesFree(before: set<string>, names: seq<string>)
  {
    && Distinct(names)
    && forall i :: 0 <= i < |names| ==> names[i] !in before && OffsetName(names[i]) !in before
  }

  /** The names the FK control loop has used after its first `|ctrls|`
      passes, given the node names `before` it started and `now`. */
  ghost predicate FkNamed(before: set<string>, now: set<string>, side: string, aliases: seq<string>,
                          ctrls: seq<string>, offs: seq<string>)
  {
    && |ctrls| == |offs| <= |aliases|
    && FreshNames(ctrls, before) && FreshNames(offs, before) && Elems(ctrls) !! Elems(offs)
    && now == before + Elems(ctrls) + Elems(offs)
    && (OffsetNamesFree(before, FkCtrlNames(side, aliases)) ==>
          && ctrls == FkCtrlNames(side, aliases[..|ctrls|])
          && forall i :: 0 <= i < |offs| ==> offs[i] == OffsetName(ctrls[i]))
    && (forall i :: 0 <= i < |ctrls| ==> OffsetName(ctrls[i]) in now)
  }

  /** What the FK control loop has built after its first `|ctrls|` passes. */
  ghost predicate FkBuilt(s0: SceneState, s: SceneState, side: string, base: string, aliases: seq<string>, fk: seq<string>,
                          ctrls: seq<string>, offs: seq<string>)
  {
    && |aliases| <= |fk|
    && FkNamed(s0.nodes.Keys, s.nodes.Keys, side, aliases, ctrls, offs)
    && s == FkControls(s0, base, fk, ctrls, offs)
  }

  /** One pass of the loop keeps `FkNamed`. */
  lemma FkNamesSnoc(before: set<string>, now: set<string>, later: set<string>, side: string, aliases: seq<string>,
                    ctrls: seq<string>, offs: seq<string>, c: string, o: string)
    requires FkNamed(before, now, side, aliases, ctrls, offs)
    requires |ctrls| < |aliases|
    requires c !in now && o !in now && c != o
    requires FkCtrlName(side, aliases[|ctrls|]) !in now ==> c == FkCtrlName(side, aliases[|ctrls|])
    requires OffsetName(c) !in now ==> o == OffsetName(c)
    requires later == now + {c, o} && OffsetName(c) in later
    ensures FkNamed(before, later, side, aliases, ctrls + [c], offs + [o])
  {
    var i := |ctrls|;
    FreshNamesSnoc(ctrls, before, c);
    FreshNamesSnoc(offs, before, o);
    FkCtrlNamesSnoc(side, aliases, i);
    var names := FkCtrlNames(side, aliases);
    if OffsetNamesFree(before, names) {
      var r := names[i];
      assert r !in Elems(ctrls);
      assert r !in Elems(offs) by {
        if r in offs {
          var j :| 0 <= j < i && offs[j] == r;
          CtrlNameNotOffsetName(side, aliases[i], ctrls[j]);
        }
      }
      assert c == r;
      assert OffsetName(c) !in Elems(offs) by {
        if OffsetName(c) in offs {
          var j :| 0 <= j < i && offs[j] == OffsetName(c);
          OffsetNameInjective(ctrls[j], c);
        }
      }
      assert OffsetName(c) !in Elems(ctrls) by {
        if OffsetName(c) in ctrls {
          var j :| 0 <= j < i && ctrls[j] == OffsetName(c);
          CtrlNameNotOffsetName(side, aliases[j], c);
        }
      }
      assert o == OffsetName(c);
    }
  }

  lemma FkBuiltSnoc(s0: SceneState, s1: SceneState, s2: SceneState, side: string, base: string,
                     aliases: seq<string>, fk: seq<string>, ctrls: seq<string>, offs: seq<string>, c: string, o: string)
    requires FkBuilt(s0, s1, side, base, aliases, fk, ctrls, offs)
    requires |ctrls| < |aliases|
    requires c !in s1.nodes && o !in s1.nodes && c != o
    requires FkCtrlName(side, aliases[|ctrls|]) !in s1.nodes ==> c == FkCtrlName(side, aliases[|ctrls|])
    requires OffsetName(c) !in s1.nodes ==> o == OffsetName(c)
    requires OffsetName(c) in s2.nodes
    requires s2 == FkControlStep(s1, base, fk[|ctrls|], c, o, if ctrls == [] then None else Some(ctrls[|ctrls| - 1]))
    ensures FkBuilt(s0, s2, side, base, aliases, fk, ctrls + [c], offs + [o])
  {
    FkNamesSnoc(s0.nodes.Keys, s1.nodes.Keys, s2.nodes.Keys, side, aliases, ctrls, offs, c, o);
    FkControlsSnoc(s0, base, fk, ctrls, offs, c, o);
  }

  /** `create_fk_controls`: one FK control per alias, named
      `{side}_{alias}_FK_CTRL` and tagged `{base}_fk`; each control after
      the first hangs (through its offset group) under the one before, is
      point-constrained to its FK joint and drives the joint's rotation.
      The first offset group is the FK top group. */
  method CreateFkControls(scene: Scene, ghost k: set<string>, side: string, base: string, aliases: seq<string>, fk: seq<string>)
    returns (ctrls: seq<string>, offs: seq<string>)
    requires Extends(scene.State(), k)
    requires |aliases| <= |fk|
    requires forall i :: 0 <= i < |aliases| ==> fk[i] in scene.nodes
    modifies scene
    ensures Extends(scene.State(), k)
    ensures |ctrls| == |offs| == |aliases|
    ensures FreshNames(ctrls, old(scene.nodes.Keys)) && FreshNames(offs, old(scene.nodes.Keys)) && Elems(ctrls) !! Elems(offs)
    ensures OffsetNamesFree(old(scene.nodes.Keys), FkCtrlNames(side, aliases)) ==>
              ctrls == FkCtrlNames(side, aliases) && forall i :: 0 <= i < |offs| ==> offs[i] == OffsetName(ctrls[i])
    ensures forall i :: 0 <= i < |ctrls| ==> OffsetName(ctrls[i]) in scene.nodes
    ensures scene.State() == FkControls(old(scene.State()), base, fk, ctrls, offs)
  {
    ghost var s0 := scene.State();
    ctrls, offs := [], [];
    var par: Option<string> := None;
    for i := 0 to |aliases|
      invariant |ctrls| == i
      invariant Extends(scene.State(), k)
      invariant FkBuilt(s0, scene.State(), side, base, aliases, fk, ctrls, offs)
      invariant par == if i == 0 then None else Some(ctrls[i - 1])
    {
      ghost var s1 := scene.State();
      var ctrl, off := AddFkControl(scene, k, side, base, aliases[i], fk[i], par);
      FkBuiltSnoc(s0, s1, scene.State(), side, base, aliases, fk, ctrls, offs, ctrl, off);
      ctrls, offs := ctrls + [ctrl], offs + [off];
      par := Some(ctrl);
    }
    assert aliases[..|ctrls|] == aliases;
  }

  // ---------------------------------------------------------------------
  // create_ik_controls
  // ---------------------------------------------------------------------

  /** The four IK controls and the offset group of the local one. */
  datatype IkControlSet = IkControlSet(world: string, local: string, localOff: string, pv: string, baseCtrl: string)

  function IkNames(c: IkControlSet): seq<string>
  {
    [c.world, c.local, c.localOff, c.pv, c.baseCtrl]
  }

  /** The names the IK controls ask for, in the order they are made. */
  function IkRequests(side: string, base: string, alias0: string): seq<string>
  {
    [WorldCtrlName(base), LocalCtrlName(base), OffsetName(LocalCtrlName(base)), PvCtrlName(base), BaseCtrlName(side, alias0)]
  }

  /** The world control: a curve turned 45 degrees about the primary axis
      (lettered `letter`), then snapped to the last IK joint with
      `a_to_b(freeze=True)`, which bakes its translate, rotate and scale in
      (the snap itself is geometry), then tagged `{base}_primary`. */
  function WorldControlStep(s: SceneState, base: string, letter: char, w: string): SceneState
  {
    s.WithNode(w, Curve).WithValue(AxisPlug(w, "rotate", letter), 45.0).WithIdentity(TrsPlugs(w))
     .WithTag(w, RoleTag(base, "primary"))
  }

  /** The local control: turned 45 degrees with the rotation then baked in,
      aligned under a new offset group `off` that goes under the world
      control, tagged `{base}_secondary`. */
  function LocalControlStep(s: SceneState, base: string, letter: char, world: string, l: string, off: string): SceneState
  {
    var v := s.values[AxisPlug(l, "rotate", letter) := 45.0];
    s.(nodes := s.nodes[l := Curve][off := Group],
       parent := s.parent[l := off][off := world],
       values := v - XyzPlugs(l, "rotate"),
       frozen := s.frozen + map p | p in XyzPlugs(l, "rotate") && p in v :: v[p],
       tags := s.tags[l := RoleTag(base, "secondary")])
  }

  /** The pole vector control: scaled to a quarter of the control size `r`
      on every axis, snapped to the pole vector with `a_to_b(freeze=True)`
      so that the scale is baked in, tagged `{base}_pv`. */
  function PvControlStep(s: SceneState, base: string, pv: string, r: real): SceneState
  {
    s.WithNode(pv, Curve).WithXyz(pv, "scale", r * 0.25).WithIdentity(TrsPlugs(pv)).WithTag(pv, RoleTag(base, "pv"))
  }

  /** The base control: turned 45 degrees, snapped to the first IK joint
      with `a_to_b(freeze=True)` so that the turn is baked in,
      parent-constraining that joint with its offset kept, tagged
      `{base}_primary`. */
  function BaseControlStep(s: SceneState, base: string, letter: char, b: string, ik0: string): SceneState
  {
    s.WithNode(b, Curve).WithValue(AxisPlug(b, "rotate", letter), 45.0).WithIdentity(TrsPlugs(b))
     .WithConstraint(ParentConstraint, b, ik0, true).WithTag(b, RoleTag(base, "primary"))
  }

  /** The scene after `create_ik_controls` has made the controls `c`. */
  function IkControls(s: SceneState, base: string, letter: char, r: real, ik0: string, c: IkControlSet): SceneState
  {
    var s1 := WorldControlStep(s, base, letter, c.world);
    var s2 := LocalControlStep(s1, base, letter, c.world, c.local, c.localOff);
    var s3 := PvControlStep(s2, base, c.pv, r);
    BaseControlStep(s3, base, letter, c.baseCtrl, ik0)
  }

  /** Five distinct names none of which was in the scene. */
  lemma IkNamesDistinct(c: IkControlSet, before: set<string>)
    requires FreshNames(IkNames(c), before)
    ensures c.world !in before && c.local !in before && c.localOff !in before && c.pv !in before && c.baseCtrl !in before
    ensures c.world != c.local && c.world != c.localOff && c.world != c.pv && c.world != c.baseCtrl
    ensures c.local != c.localOff && c.local != c.pv && c.local != c.baseCtrl
    ensures c.localOff != c.pv && c.localOff != c.baseCtrl && c.pv != c.baseCtrl
  {
    var q := IkNames(c);
    assert q[0] == c.world && q[1] == c.local && q[2] == c.localOff && q[3] == c.pv && q[4] == c.baseCtrl;
    assert q[0] !in before && q[1] !in before && q[2] !in before && q[3] !in before && q[4] !in before;
  }

  /** The channels `create_ik_controls` bakes in: every transform channel
      of the world, pole vector and base controls, and the local control's
      rotation. */
  function IkBakedPlugs(c: IkControlSet): set<Plug>
  {
    TrsPlugs(c.world) + XyzPlugs(c.local, "rotate") + TrsPlugs(c.pv) + TrsPlugs(c.baseCtrl)
  }

  /** The tables `create_ik_controls` changes, each as one expression over
      the tables before it. */
  lemma IkControlsTables(s: SceneState, base: string, letter: char, r: real, ik0: string, c: IkControlSet)
    ensures var t := IkControls(s, base, letter, r, ik0, c);
      && t.nodes == s.nodes[c.world := Curve][c.local := Curve][c.localOff := Group][c.pv := Curve][c.baseCtrl := Curve]
      && t.tags == s.tags[c.world := RoleTag(base, "primary")][c.local := RoleTag(base, "secondary")]
                         [c.pv := RoleTag(base, "pv")][c.baseCtrl := RoleTag(base, "primary")]
      && t.constraints == s.constraints + {Constraint(ParentConstraint, c.baseCtrl, ik0, true)}
  {
  }

  /** The parent table after `create_ik_controls`. */
  lemma IkControlsParent(s: SceneState, base: string, letter: char, r: real, ik0: string, c: IkControlSet)
    ensures IkControls(s, base, letter, r, ik0, c).parent == s.parent[c.local := c.localOff][c.localOff := c.world]
  {
  }

  /** `create_ik_controls` makes four curves and one group under the five
      fresh names, leaves every other node as it was, and adds one
      constraint: the base control drives the first IK joint with its
      offset kept. */
  lemma IkControlsNodes(s: SceneState, base: string, letter: char, r: real, ik0: string, c: IkControlSet)
    requires FreshNames(IkNames(c), s.nodes.Keys)
    ensures var t := IkControls(s, base, letter, r, ik0, c);
      && t.nodes.Keys == s.nodes.Keys + {c.world, c.local, c.localOff, c.pv, c.baseCtrl}
      && t.nodes[c.world] == Curve && t.nodes[c.local] == Curve && t.nodes[c.localOff] == Group
      && t.nodes[c.pv] == Curve && t.nodes[c.baseCtrl] == Curve
      && (forall n :: n in s.nodes ==> t.nodes[n] == s.nodes[n])
      && t.constraints == s.constraints + {Constraint(ParentConstraint, c.baseCtrl, ik0, true)}
  {
    IkControlsTables(s, base, letter, r, ik0, c);
    IkNodesAdded(s.nodes, c);
  }

  /** The node-table part of `IkControlsNodes`. */
  lemma IkNodesAdded(m: map<string, NodeType>, c: IkControlSet)
    requires FreshNames(IkNames(c), m.Keys)
    ensures var t := m[c.world := Curve][c.local := Curve][c.localOff := Group][c.pv := Curve][c.baseCtrl := Curve];
      && t.Keys == m.Keys + {c.world, c.local, c.localOff, c.pv, c.baseCtrl}
      && t[c.world] == Curve && t[c.local] == Curve && t[c.localOff] == Group
      && t[c.pv] == Curve && t[c.baseCtrl] == Curve
      && (forall n :: n in m ==> t[n] == m[n])
  {
    IkNamesDistinct(c, m.Keys);
    Update5(m, c.world, Curve, c.local, Curve, c.localOff, Group, c.pv, Curve, c.baseCtrl, Curve);
    var t := m[c.world := Curve][c.local := Curve][c.localOff := Group][c.pv := Curve][c.baseCtrl := Curve];
    forall n | n in m ensures t[n] == m[n] {
      assert n != c.world && n != c.local && n != c.localOff && n != c.pv && n != c.baseCtrl;
    }
  }

  /** The world and base controls are tagged `{base}_primary`, the local
      one `{base}_secondary` and the pole vector `{base}_pv`; no tag already
      in the scene changes. */
  lemma IkControlsTagged(s: SceneState, base: string, letter: char, r: real, ik0: string, c: IkControlSet)
    requires WellFormed(s)
    requires FreshNames(IkNames(c), s.nodes.Keys)
    ensures var t := IkControls(s, base, letter, r, ik0, c);
      && t.tags.Keys == s.tags.Keys + {c.world, c.local, c.pv, c.baseCtrl}
      && t.tags[c.world] == RoleTag(base, "primary") && t.tags[c.baseCtrl] == RoleTag(base, "primary")
      && t.tags[c.local] == RoleTag(base, "secondary") && t.tags[c.pv] == RoleTag(base, "pv")
      && (forall n :: n in s.tags ==> t.tags[n] == s.tags[n])
  {
    IkControlsTables(s, base, letter, r, ik0, c);
    IkTagsAdded(s.tags, s.nodes.Keys, base, c);
  }

  /** The tag-table part of `IkControlsTagged`. */
  lemma IkTagsAdded(m: map<string, string>, before: set<string>, base: string, c: IkControlSet)
    requires m.Keys <= before
    requires FreshNames(IkNames(c), before)
    ensures var t := m[c.world := RoleTag(base, "primary")][c.local := RoleTag(base, "secondary")]
                      [c.pv := RoleTag(base, "pv")][c.baseCtrl := RoleTag(base, "primary")];
      && t.Keys == m.Keys + {c.world, c.local, c.pv, c.baseCtrl}
      && t[c.world] == RoleTag(base, "primary") && t[c.baseCtrl] == RoleTag(base, "primary")
      && t[c.local] == RoleTag(base, "secondary") && t[c.pv] == RoleTag(base, "pv")
      && (forall n :: n in m ==> t[n] == m[n])
  {
    IkNamesDistinct(c, before);
    Update4(m, c.world, RoleTag(base, "primary"), c.local, RoleTag(base, "secondary"),
            c.pv, RoleTag(base, "pv"), c.baseCtrl, RoleTag(base, "primary"));
  }

  /** The hierarchy part of `IkControlsHierarchy`, on the parent table alone. */
  lemma IkParentsAdded(p: map<string, string>, before: set<string>, c: IkControlSet)
    requires p.Keys <= before
    requires FreshNames(IkNames(c), before)
    ensures var t := p[c.local := c.localOff][c.localOff := c.world];
      && c.local in t && t[c.local] == c.localOff
      && c.localOff in t && t[c.localOff] == c.world
      && c.world !in t && c.pv !in t && c.baseCtrl !in t
      && (forall n :: n in p ==> n in t && t[n] == p[n])
      && t.Keys == p.Keys + {c.local, c.localOff}
  {
    IkNamesDistinct(c, before);
    Update2(p, c.local, c.localOff, c.localOff, c.world);
  }

  /** The local control hangs under its offset group and the group under
      the world control; nothing else in the hierarchy changes, so the
      world, pole vector and base controls stay at the top. */
  lemma IkControlsHierarchy(s: SceneState, base: string, letter: char, r: real, ik0: string, c: IkControlSet)
    requires WellFormed(s)
    requires FreshNames(IkNames(c), s.nodes.Keys)
    ensures var t := IkControls(s, base, letter, r, ik0, c);
      && c.local in t.parent && t.parent[c.local] == c.localOff
      && c.localOff in t.parent && t.parent[c.localOff] == c.world
      && c.world !in t.parent && c.pv !in t.parent && c.baseCtrl !in t.parent
      && (forall n :: n in s.parent ==> n in t.parent && t.parent[n] == s.parent[n])
      && t.parent.Keys == s.parent.Keys + {c.local, c.localOff}
  {
    IkControlsParent(s, base, letter, r, ik0, c);
    IkParentsAdded(s.parent, s.nodes.Keys, c);
  }

  /** Every channel `create_ik_controls` sets ends up baked in: the 45-degree
      turn of the world, local and base controls about the primary axis and
      the pole vector's quarter-size scale sit in the frozen table, the
      baked channels read their defaults again, and every other live value
      is kept. */
  lemma IkControlsChannels(s: SceneState, base: string, letter: char, r: real, ik0: string, c: IkControlSet)
    requires FreshNames(IkNames(c), s.nodes.Keys)
    requires IsAxisLetter(letter)
    ensures var t := IkControls(s, base, letter, r, ik0, c);
      && (forall p :: p in IkBakedPlugs(c) ==> p !in t.values)
      && (forall p :: p in s.values && p !in IkBakedPlugs(c) ==> p in t.values && t.values[p] == s.values[p])
      && AxisPlug(c.world, "rotate", letter) in t.frozen && t.frozen[AxisPlug(c.world, "rotate", letter)] == 45.0
      && AxisPlug(c.local, "rotate", letter) in t.frozen && t.frozen[AxisPlug(c.local, "rotate", letter)] == 45.0
      && AxisPlug(c.baseCtrl, "rotate", letter) in t.frozen && t.frozen[AxisPlug(c.baseCtrl, "rotate", letter)] == 45.0
      && (forall p :: p in XyzPlugs(c.pv, "scale") ==> p in t.frozen && t.frozen[p] == r * 0.25)
  {
    IkNamesDistinct(c, s.nodes.Keys);
    var s1 := WorldControlStep(s, base, letter, c.world);
    var s2 := LocalControlStep(s1, base, letter, c.world, c.local, c.localOff);
    var s3 := PvControlStep(s2, base, c.pv, r);
    WorldBakes(s, base, letter, c.world);
    LocalBakes(s1, base, letter, c.world, c.local, c.localOff);
    PvBakes(s2, base, c.pv, r);
    BaseBakes(s3, base, letter, c.baseCtrl, ik0);
    var pw, pl, pp, pb := TrsPlugs(c.world), XyzPlugs(c.local, "rotate"), TrsPlugs(c.pv), TrsPlugs(c.baseCtrl);
    var rw, rl, rb := AxisPlug(c.world, "rotate", letter), AxisPlug(c.local, "rotate", letter), AxisPlug(c.baseCtrl, "rotate", letter);
    var q := XyzPlugs(c.pv, "scale");
    BakedApart(c, letter);
    BakesChain(s, s1, s2, s3, BaseControlStep(s3, base, letter, c.baseCtrl, ik0), rw, rl, q, rb, pw, pl, pp, pb, r);
  }

  /** From `a` to `t` the channels `d` were baked: they have left the live
      values, which otherwise are those of `a`, and what was frozen on
      other channels stays frozen. */
  ghost predicate Baked(a: SceneState, t: SceneState, d: set<Plug>)
  {
    && (forall p :: p in t.values ==> p in a.values && p !in d)
    && (forall p :: p in a.values && p !in d ==> p in t.values && t.values[p] == a.values[p])
    && (forall p :: p in a.frozen && p !in d ==> p in t.frozen && t.frozen[p] == a.frozen[p])
  }

  /** The world control's step bakes its channels, the 45-degree turn
      among them. */
  lemma WorldBakes(s: SceneState, base: string, letter: char, w: string)
    requires IsAxisLetter(letter)
    ensures var t := WorldControlStep(s, base, letter, w);
      && Baked(s, t, TrsPlugs(w))
      && AxisPlug(w, "rotate", letter) in t.frozen && t.frozen[AxisPlug(w, "rotate", letter)] == 45.0
  {
    assert AxisPlug(w, "rotate", letter) in TrsPlugs(w);
  }

  /** The local control's step bakes its rotation. */
  lemma LocalBakes(s: SceneState, base: string, letter: char, world: string, l: string, off: string)
    requires IsAxisLetter(letter)
    ensures var t := LocalControlStep(s, base, letter, world, l, off);
      && Baked(s, t, XyzPlugs(l, "rotate"))
      && AxisPlug(l, "rotate", letter) in t.frozen && t.frozen[AxisPlug(l, "rotate", letter)] == 45.0
  {
  }

  /** The pole vector's step bakes its quarter-size scale with its other
      transform channels. */
  lemma PvBakes(s: SceneState, base: string, pv: string, r: real)
    ensures var t := PvControlStep(s, base, pv, r);
      && Baked(s, t, TrsPlugs(pv))
      && (forall p :: p in XyzPlugs(pv, "scale") ==> p in t.frozen && t.frozen[p] == r * 0.25)
  {
    assert XyzPlugs(pv, "scale") <= TrsPlugs(pv);
  }

  /** The base control's step bakes its 45-degree turn. */
  lemma BaseBakes(s: SceneState, base: string, letter: char, b: string, ik0: string)
    requires IsAxisLetter(letter)
    ensures var t := BaseControlStep(s, base, letter, b, ik0);
      && Baked(s, t, TrsPlugs(b))
      && AxisPlug(b, "rotate", letter) in t.frozen && t.frozen[AxisPlug(b, "rotate", letter)] == 45.0
  {
    assert AxisPlug(b, "rotate", letter) in TrsPlugs(b);
  }

  /** The channels one IK control's step bakes are not the ones a later
      step bakes. */
  lemma BakedApart(c: IkControlSet, letter: char)
    requires c.world != c.local && c.world != c.pv && c.world != c.baseCtrl
    requires c.local != c.pv && c.local != c.baseCtrl && c.pv != c.baseCtrl
    ensures var rw, rl := AxisPlug(c.world, "rotate", letter), AxisPlug(c.local, "rotate", letter);
      && rw !in XyzPlugs(c.local, "rotate") && rw !in TrsPlugs(c.pv) && rw !in TrsPlugs(c.baseCtrl)
      && rl !in TrsPlugs(c.pv) && rl !in TrsPlugs(c.baseCtrl)
      && XyzPlugs(c.pv, "scale") !! TrsPlugs(c.baseCtrl)
  {
  }

  /** Four bakes in a row, over any states that show them: `w`, `l`, `b`
      are the turned channels and `q` the scaled ones, each baked by its
      own step and untouched by the later ones. */
  lemma BakesChain(s: SceneState, s1: SceneState, s2: SceneState, s3: SceneState, t: SceneState,
                   w: Plug, l: Plug, q: set<Plug>, b: Plug, pw: set<Plug>, pl: set<Plug>, pp: set<Plug>, pb: set<Plug>, r: real)
    requires w !in pl && w !in pp && w !in pb && l !in pp && l !in pb && q !! pb
    requires Baked(s, s1, pw) && w in s1.frozen && s1.frozen[w] == 45.0
    requires Baked(s1, s2, pl) && l in s2.frozen && s2.frozen[l] == 45.0
    requires Baked(s2, s3, pp) && forall p :: p in q ==> p in s3.frozen && s3.frozen[p] == r * 0.25
    requires Baked(s3, t, pb) && b in t.frozen && t.frozen[b] == 45.0
    ensures forall p :: p in pw + pl + pp + pb ==> p !in t.values
    ensures forall p :: p in s.values && p !in pw + pl + pp + pb ==> p in t.values && t.values[p] == s.values[p]
    ensures w in t.frozen && t.frozen[w] == 45.0 && l in t.frozen && t.frozen[l] == 45.0
    ensures b in t.frozen && t.frozen[b] == 45.0
    ensures forall p :: p in q ==> p in t.frozen && t.frozen[p] == r * 0.25
  {
    assert s2.frozen[w] == 45.0;
    assert s3.frozen[w] == 45.0 && s3.frozen[l] == 45.0;
  }

  method AddWorldControl(scene: Scene, ghost k: set<string>, base: string, letter: char) returns (w: string)
    requires Extends(scene.State(), k)
    modifies scene
    ensures Extends(scene.State(), k)
    ensures w !in old(scene.nodes)
    ensures WorldCtrlName(base) !in old(scene.nodes) ==> w == WorldCtrlName(base)
    ensures scene.nodes.Keys == old(scene.nodes.Keys) + {w}
    ensures scene.State() == WorldControlStep(old(scene.State()), base, letter, w)
  {
    w := scene.CreateNode(WorldCtrlName(base), Curve);
    scene.SetAttr(AxisPlug(w, "rotate", letter), 45.0);
    // a_to_b(freeze=True): the snap is geometry, the freeze is kept
    scene.MakeIdentity(TrsPlugs(w));
    TagControl(scene, w, RoleTag(base, "primary"));
  }

  method AddLocalControl(scene: Scene, ghost k: set<string>, base: string, letter: char, world: string)
    returns (l: string, off: string)
    requires Extends(scene.State(), k)
    requires world in scene.nodes && world !in k
    modifies scene
    ensures Extends(scene.State(), k)
    ensures l !in old(scene.nodes) && off !in old(scene.nodes) && l != off
    ensures LocalCtrlName(base) !in old(scene.nodes) ==> l == LocalCtrlName(base)
    ensures OffsetName(l) !in old(scene.nodes) ==> off == OffsetName(l)
    ensures scene.nodes.Keys == old(scene.nodes.Keys) + {l, off}
    ensures scene.State() == LocalControlStep(old(scene.State()), base, letter, world, l, off)
  {
    l := scene.CreateNode(LocalCtrlName(base), Curve);
    scene.SetAttr(AxisPlug(l, "rotate", letter), 45.0);
    scene.MakeIdentity(XyzPlugs(l, "rotate"));
    off := AlignLras(scene, k, l);
    RootedInUpdate(scene.parent, k, off, world);
    scene.Parent(off, world);
    TagControl(scene, l, RoleTag(base, "secondary"));
    Update2(old(scene.nodes), l, Curve, off, Group);
  }

  method AddPvControl(scene: Scene, ghost k: set<string>, base: string, r: real) returns (pv: string)
    requires Extends(scene.State(), k)
    modifies scene
    ensures Extends(scene.State(), k)
    ensures pv !in old(scene.nodes)
    ensures PvCtrlName(base) !in old(scene.nodes) ==> pv == PvCtrlName(base)
    ensures scene.nodes.Keys == old(scene.nodes.Keys) + {pv}
    ensures scene.State() == PvControlStep(old(scene.State()), base, pv, r)
  {
    ghost var s0 := scene.State();
    pv := scene.CreateNode(PvCtrlName(base), Curve);
    scene.SetXyz(pv, "scale", r * 0.25);
    ghost var s1 := scene.State();
    assert s1 == s0.WithNode(pv, Curve).WithXyz(pv, "scale", r * 0.25);
    scene.MakeIdentity(TrsPlugs(pv));
    assert scene.parent == s0.parent;
    TagControl(scene, pv, RoleTag(base, "pv"));
  }

  method AddBaseControl(scene: Scene, ghost k: set<string>, side: string, base: string, alias0: string, letter: char, ik0: string)
    returns (b: string)
    requires Extends(scene.State(), k)
    requires ik0 in scene.nodes
    modifies scene
    ensures Extends(scene.State(), k)
    ensures b !in old(scene.nodes)
    ensures BaseCtrlName(side, alias0) !in old(scene.nodes) ==> b == BaseCtrlName(side, alias0)
    ensures scene.State() == BaseControlStep(old(scene.State()), base, letter, b, ik0)
  {
    b := scene.CreateNode(BaseCtrlName(side, alias0), Curve);
    scene.SetAttr(AxisPlug(b, "rotate", letter), 45.0);
    scene.MakeIdentity(TrsPlugs(b));
    scene.Constrain(ParentConstraint, b, ik0, true);
    TagControl(scene, b, RoleTag(base, "primary"));
  }

  /** `create_ik_controls`: the world, local, pole vector and base IK
      controls.  Where `a_to_b` places a control on the chain is geometry
      and is not part of this model; its `freeze=True` bake is. */
  method CreateIkControls(scene: Scene, ghost k: set<string>, side: string, base: string, alias0: string,
                          primaryAxis: string, r: real, ik: seq<string>)
    returns (c: IkControlSet)
    requires Extends(scene.State(), k)
    requires primaryAxis != []
    requires ik != [] && ik[0] in scene.nodes
    modifies scene
    ensures Extends(scene.State(), k)
    ensures FreshNames(IkNames(c), old(scene.nodes.Keys))
    ensures FreshNames(IkRequests(side, base, alias0), old(scene.nodes.Keys)) ==> IkNames(c) == IkRequests(side, base, alias0)
    ensures scene.State() == IkControls(old(scene.State()), base, LastChar(primaryAxis), r, ik[0], c)
  {
    var letter := LastChar(primaryAxis);
    ghost var n0 := scene.nodes.Keys;
    var w := AddWorldControl(scene, k, base, letter);
    ghost var n1 := scene.nodes.Keys;
    var l, off := AddLocalControl(scene, k, base, letter, w);
    ghost var n2 := scene.nodes.Keys;
    var pv := AddPvControl(scene, k, base, r);
    ghost var n3 := scene.nodes.Keys;
    var b := AddBaseControl(scene, k, side, base, alias0, letter, ik[0]);
    c := IkControlSet(w, l, off, pv, b);
    IkNamesFresh(n0, n1, n2, n3, side, base, alias0, c);
  }

  /** The naming part of `CreateIkControls`: `n0` to `n3` are the node
      names before each control is made. */
  lemma IkNamesFresh(n0: set<string>, n1: set<string>, n2: set<string>, n3: set<string>,
                     side: string, base: string, alias0: string, c: IkControlSet)
    requires n1 == n0 + {c.world} && n2 == n1 + {c.local, c.localOff} && n3 == n2 + {c.pv}
    requires c.world !in n0 && c.local !in n1 && c.localOff !in n1 && c.local != c.localOff
    requires c.pv !in n2 && c.baseCtrl !in n3
    requires WorldCtrlName(base) !in n0 ==> c.world == WorldCtrlName(base)
    requires LocalCtrlName(base) !in n1 ==> c.local == LocalCtrlName(base)
    requires OffsetName(c.local) !in n1 ==> c.localOff == OffsetName(c.local)
    requires PvCtrlName(base) !in n2 ==> c.pv == PvCtrlName(base)
    requires BaseCtrlName(side, alias0) !in n3 ==> c.baseCtrl == BaseCtrlName(side, alias0)
    ensures FreshNames(IkNames(c), n0)
    ensures FreshNames(IkRequests(side, base, alias0), n0) ==> IkNames(c) == IkRequests(side, base, alias0)
  {
    var q := IkRequests(side, base, alias0);
    if FreshNames(q, n0) {
      assert q[0] != q[1] && q[0] != q[2] && q[1] != q[2];
      assert q[3] != q[0] && q[3] != q[1] && q[3] != q[2];
      assert q[4] != q[0] && q[4] != q[1] && q[4] != q[2] && q[4] != q[3];
    }
  }

  // ---------------------------------------------------------------------
  // the IK handle
  // ---------------------------------------------------------------------

  /** The scene after the IK handle `ikh` is made over the IK chain from
      `ik0` to `ikEnd`, parent-constrained to the local control with its
      offset kept and pole-vector-constrained to the pole vector control. */
  function IkHandleStep(s: SceneState, ik0: string, ikEnd: string, local: string, pv: string, ikh: string): SceneState
  {
    s.(nodes := s.nodes[ikh := IkHandle(ik0, ikEnd)],
       constraints := s.constraints + {Constraint(ParentConstraint, local, ikh, true),
                                       Constraint(PoleVectorConstraint, pv, ikh, false)})
  }

  /** `ikHandle` with the rotate-plane solver over the whole IK chain,
      named `{base}_IKH`, then driven by the local and pole vector
      controls.  The end effector Maya adds under the chain is not part of
      this model. */
  method CreateIkHandle(scene: Scene, ghost k: set<string>, base: string, ik: seq<string>, local: string, pv: string)
    returns (ikh: string)
    requires Extends(scene.State(), k)
    requires ik != [] && ik[0] in scene.nodes && ik[|ik| - 1] in scene.nodes
    requires local in scene.nodes && pv in scene.nodes
    modifies scene
    ensures Extends(scene.State(), k)
    ensures ikh !in old(scene.nodes)
    ensures IkHandleName(base) !in old(scene.nodes) ==> ikh == IkHandleName(base)
    ensures scene.State() == IkHandleStep(old(scene.State()), ik[0], ik[|ik| - 1], local, pv, ikh)
  {
    ghost var s0 := scene.State();
    ikh := scene.CreateNode(IkHandleName(base), IkHandle(ik[0], ik[|ik| - 1]));
    scene.Constrain(ParentConstraint, local, ikh, true);
    scene.Constrain(PoleVectorConstraint, pv, ikh, false);
    ExtendsKept(s0, scene.State(), k);
  }
}
