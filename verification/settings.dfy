/** The settings control that carries the IK/FK switch. */
module Settings {
  import opened Common
  import opened Names
  import opened SceneGraph
  import opened Axis
  import opened Controls

  // ---------------------------------------------------------------------
  // create_settings_control
  // ---------------------------------------------------------------------

  /** The attribute the whole switch reads: 0 is FK, 1 is IK. */
  const FkIkRange: Range := Range(Some(0.0), Some(1.0), 1.0)

  /** How far the settings control is pushed along the up axis: `1.5 r`,
      negative when the up label starts with `-`. */
  function UpOffset(up: string, r: real): real
    requires up != []
  {
    if up[0] == '-' then r * -1.5 else r * 1.5
  }

  /** The values the settings control is given before they are baked in. */
  function SettingsValues(v: map<Plug, real>, st: string, up: string, r: real): map<Plug, real>
    requires up != []
  {
    v[AxisPlug(st, "scale", 'X') := r * 0.25][AxisPlug(st, "scale", 'Y') := r * 0.25][AxisPlug(st, "scale", 'Z') := r * 0.25]
     [AxisPlug(st, "translate", LastChar(up)) := UpOffset(up, r)]
  }

  /** The scene after `create_settings_control` made the control `st` and
      its offset group `off`: tagged `{base}_primary`, scaled to a quarter
      of `r` and pushed along the up axis, with those values then baked in,
      parent-constrained to the last bind joint with its offset kept, and
      given the `fkIk` attribute. */
  function SettingsControlStep(s: SceneState, base: string, up: string, r: real, bindLast: string, st: string, off: string): SceneState
    requires up != []
  {
    var v := SettingsValues(s.values, st, up, r);
    s.(nodes := s.nodes[st := Curve][off := Group],
       parent := s.parent[st := off],
       tags := s.tags[st := RoleTag(base, "primary")],
       values := v - TrsPlugs(st),
       frozen := s.frozen + map p | p in TrsPlugs(st) && p in v :: v[p],
       constraints := s.constraints + {Constraint(ParentConstraint, bindLast, st, true)},
       attrs := s.attrs[Plug(st, "fkIk") := FkIkRange])
  }

  /** The settings control sits `1.5 r` along the up vector: when a `-`
      can only lead the label, the offset is `1.5 r` where the up vector's
      non-zero component is 1 and `-1.5 r` where it is -1. */
  lemma UpOffsetAlongUpAxis(up: string, r: real)
    requires DefineAxis(up).Success?
    requires forall i :: 0 < i < |up| ==> up[i] != '-'
    ensures Component(DefineAxis(up).value, LastChar(up)) == 1 ==> UpOffset(up, r) == r * 1.5
    ensures Component(DefineAxis(up).value, LastChar(up)) == -1 ==> UpOffset(up, r) == r * -1.5
  {
    LeadingMinusSign(up);
  }

  /** When a `-` can only lead the label, the label is negative exactly
      when it starts with `-`. */
  lemma LeadingMinusSign(up: string)
    requires up != []
    requires forall i :: 0 < i < |up| ==> up[i] != '-'
    ensures Sign(up) == (if up[0] == '-' then -1 else 1)
  {
    if up[0] == '-' {
      assert '-' in up;
    }
  }

  /** The baked and the remaining values of the settings control. */
  lemma SettingsFrozenFacts(f: map<Plug, real>, v: map<Plug, real>, st: string, up: string, r: real)
    requires up != [] && IsAxisLetter(LastChar(up))
    ensures var w := SettingsValues(v, st, up, r);
      var t := f + map p | p in TrsPlugs(st) && p in w :: w[p];
      && AxisPlug(st, "translate", LastChar(up)) in t && t[AxisPlug(st, "translate", LastChar(up))] == UpOffset(up, r)
      && (forall a :: a in "XYZ" ==> AxisPlug(st, "scale", a) in t && t[AxisPlug(st, "scale", a)] == r * 0.25)
      && (forall p :: p in TrsPlugs(st) ==> p !in w - TrsPlugs(st))
  {
    var w := SettingsValues(v, st, up, r);
    assert AxisPlug(st, "translate", LastChar(up)) in w && w[AxisPlug(st, "translate", LastChar(up))] == UpOffset(up, r);
    assert AxisPlug(st, "translate", LastChar(up)) in TrsPlugs(st);
    forall a | a in "XYZ"
      ensures AxisPlug(st, "scale", a) in w && w[AxisPlug(st, "scale", a)] == r * 0.25
      ensures AxisPlug(st, "scale", a) in TrsPlugs(st)
    {
      assert AxisPlug(st, "scale", a) != AxisPlug(st, "translate", LastChar(up));
    }
  }

  /** What `create_settings_control` leaves behind: the control under its
      own offset group, which stays at the top of the hierarchy, tagged
      primary, with its scale of `r / 4` and its offset along the up axis
      baked in so that no translate, rotate or scale value is left on it,
      following the last bind joint, and carrying `fkIk` in [0, 1] with
      default 1. */
  lemma SettingsControlShape(s: SceneState, base: string, up: string, r: real, bindLast: string, st: string, off: string)
    requires WellFormed(s)
    requires st !in s.nodes && off !in s.nodes && st != off
    requires up != [] && IsAxisLetter(LastChar(up))
    ensures var t := SettingsControlStep(s, base, up, r, bindLast, st, off);
      && t.nodes.Keys == s.nodes.Keys + {st, off}
      && t.parent.Keys == s.parent.Keys + {st} && t.parent[st] == off
      && t.tags[st] == RoleTag(base, "primary")
      && Plug(st, "fkIk") in t.attrs && t.attrs[Plug(st, "fkIk")] == Range(Some(0.0), Some(1.0), 1.0)
      && AxisPlug(st, "translate", LastChar(up)) in t.frozen && t.frozen[AxisPlug(st, "translate", LastChar(up))] == UpOffset(up, r)
      && (forall a :: a in "XYZ" ==> AxisPlug(st, "scale", a) in t.frozen && t.frozen[AxisPlug(st, "scale", a)] == r * 0.25)
      && (forall p :: p in TrsPlugs(st) ==> p !in t.values)
      && Constraint(ParentConstraint, bindLast, st, true) in t.constraints
  {
    SettingsFrozenFacts(s.frozen, s.values, st, up, r);
    Update2(s.nodes, st, Curve, off, Group);
  }

  /** The curve, its tag and its offset group. */
  method AddSettingsCurve(scene: Scene, ghost k: set<string>, base: string) returns (st: string, off: string)
    requires Extends(scene.State(), k)
    modifies scene
    ensures Extends(scene.State(), k)
    ensures st !in old(scene.nodes) && off !in old(scene.nodes) && st != off
    ensures SettingsCtrlName(base) in scene.nodes
    ensures SettingsCtrlName(base) !in old(scene.nodes) ==> st == SettingsCtrlName(base)
    ensures OffsetName(st) !in old(scene.nodes) ==> off == OffsetName(st)
    ensures scene.State() == old(scene.State()).(nodes := old(scene.nodes)[st := Curve][off := Group],
                                                 parent := old(scene.parent)[st := off],
                                                 tags := old(scene.tags)[st := RoleTag(base, "primary")])
  {
    st := scene.CreateNode(SettingsCtrlName(base), Curve);
    TagControl(scene, st, RoleTag(base, "primary"));
    off := AlignLras(scene, k, st);
  }

  /** Scale, offset, freeze, constraint and switch attribute. */
  method ShapeSettingsControl(scene: Scene, up: string, r: real, bindLast: string, st: string)
    requires scene.Valid()
    requires up != []
    requires st in scene.nodes && bindLast in scene.nodes
    requires Plug(st, "fkIk") !in scene.attrs
    modifies scene
    ensures scene.Valid()
    ensures var v := SettingsValues(old(scene.values), st, up, r);
      scene.State() == old(scene.State()).(values := v - TrsPlugs(st),
                                           frozen := old(scene.frozen) + map p | p in TrsPlugs(st) && p in v :: v[p],
                                           constraints := old(scene.constraints) + {Constraint(ParentConstraint, bindLast, st, true)},
                                           attrs := old(scene.attrs)[Plug(st, "fkIk") := FkIkRange])
  {
    ghost var s0 := scene.State();
    scene.SetXyz(st, "scale", r * 0.25);
    ghost var sx := scene.State();
    assert sx.values == s0.values[AxisPlug(st, "scale", 'X') := r * 0.25][AxisPlug(st, "scale", 'Y') := r * 0.25]
                         [AxisPlug(st, "scale", 'Z') := r * 0.25];
    if up[0] == '-' {
      scene.SetAttr(AxisPlug(st, "translate", LastChar(up)), r * -1.5);
    } else {
      scene.SetAttr(AxisPlug(st, "translate", LastChar(up)), r * 1.5);
    }
    assert scene.values == sx.values[AxisPlug(st, "translate", LastChar(up)) := UpOffset(up, r)];
    assert scene.State() == s0.(values := SettingsValues(s0.values, st, up, r));
    ghost var s1 := scene.State();
    scene.MakeIdentity(TrsPlugs(st));
    assert scene.State() == s1.WithIdentity(TrsPlugs(st));
    scene.Constrain(ParentConstraint, bindLast, st, true);
    scene.AddAttr(Plug(st, "fkIk"), FkIkRange);
  }

  /** `create_settings_control`: the control that carries the IK/FK switch,
      placed beside the end of the limb.  Snapping it to the last IK joint
      is geometry and is not part of this model. */
  method CreateSettingsControl(scene: Scene, ghost k: set<string>, base: string, up: string, r: real, bindLast: string)
    returns (st: string, off: string)
    requires Extends(scene.State(), k)
    requires up != []
    requires bindLast in scene.nodes
    modifies scene
    ensures Extends(scene.State(), k)
    ensures st !in old(scene.nodes) && off !in old(scene.nodes) && st != off
    ensures SettingsCtrlName(base) in scene.nodes
    ensures SettingsCtrlName(base) !in old(scene.nodes) ==> st == SettingsCtrlName(base)
    ensures OffsetName(st) !in old(scene.nodes) ==> off == OffsetName(st)
    ensures scene.State() == SettingsControlStep(old(scene.State()), base, up, r, bindLast, st, off)
  {
    st, off := AddSettingsCurve(scene, k, base);
    ghost var s1 := scene.State();
    assert Plug(st, "fkIk") !in scene.attrs;
    ShapeSettingsControl(scene, up, r, bindLast, st);
    ExtendsKept(s1, scene.State(), k);
  }
}
