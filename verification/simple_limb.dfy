/** The function form of the builder, `limb` in simpleLimb.py: the checks,
    then every stage inline, in the order the function runs them. */
module SimpleLimb {
  import opened Common
  import opened Names
  import opened Axis
  import opened SceneGraph
  import opened Chains
  import opened Controls
  import opened Settings
  import opened Stretch
  import opened Hierarchy
  import opened Pipeline

  /** The names `limb` holds in its locals once the rig is built (the
      function itself returns nothing). */
  datatype Rig = Rig(core: Core, tail: Tail)

  /** The first part of `limb`, in its order: the three chains, the FK
      controls, the IK controls, the IK handle, the settings control and
      the switch, starting from `s0`; `r` is the control size. */
  ghost predicate HeadTrace(s0: SceneState, h: HeadStates, cfg: Config, c: Core, r: real)
  {
    && cfg.primaryAxis != [] && cfg.upAxis != [] && |cfg.guides| == 3
    && |c.ik| == 3 && |c.fk| == 3 && |c.bind| == 3 && |c.fkCtrls| == 3 && |c.fkOffs| == 3 && |c.blends| == 9
    && h.ik == Chained(s0, cfg.guides, c.ik)
    && h.fk == Chained(h.ik, cfg.guides, c.fk)
    && h.bind == Chained(h.fk, cfg.guides, c.bind)
    && h.fkCtrls == FkControls(h.bind, Base(cfg), c.fk, c.fkCtrls, c.fkOffs)
    && h.ikCtrls == IkControls(h.fkCtrls, Base(cfg), LastChar(cfg.primaryAxis), r, c.ik[0], c.ikCtrls)
    && h.ikh == IkHandleStep(h.ikCtrls, c.ik[0], c.ik[2], c.ikCtrls.local, c.ikCtrls.pv, c.ikh)
    && h.settings == SettingsControlStep(h.ikh, Base(cfg), cfg.upAxis, r, c.bind[2], c.settings, c.settingsOff)
    && h.blend == Blended(h.settings, Base(cfg), c.ik, c.fk, c.bind, c.blends)
  }

  /** Everything of `limb` before the stretch stage. */
  method BuildHead(scene: Scene, ghost k: set<string>, cfg: Config, r: real) returns (c: Core, ghost h: HeadStates)
    requires Extends(scene.State(), k)
    requires |cfg.guides| == 3 && |cfg.aliases| == 3 && cfg.primaryAxis != [] && cfg.upAxis != []
    modifies scene
    ensures Ready(scene.State(), k, c)
    ensures HeadTrace(old(scene.State()), h, cfg, c, r) && h.blend == scene.State()
  {
    var ik, fk, bind;
    ghost var s1, s2;
    ik, fk, bind, s1, s2 := MakeChains(scene, k, cfg.side, cfg.guides, cfg.aliases);
    ghost var s3 := scene.State();
    var ctrls, offs := MakeFkControls(scene, k, cfg.side, Base(cfg), cfg.aliases, fk);
    ghost var s4 := scene.State();
    c := MakeIkControls(scene, k, cfg.side, Base(cfg), cfg.aliases[0], cfg.primaryAxis, r,
                        Core(ik, fk, bind, ctrls, offs, IkControlSet("", "", "", "", ""), "", "", [], ""));
    ghost var s5 := scene.State();
    var ikh := MakeHandle(scene, k, Base(cfg), c);
    c := c.(ikh := ikh);
    ghost var s6 := scene.State();
    var st, off := MakeSettings(scene, k, Base(cfg), cfg.upAxis, r, c);
    c := c.(settings := st, settingsOff := off);
    ghost var s7 := scene.State();
    var bcns := MakeBlend(scene, k, Base(cfg), c);
    c := c.(blends := bcns);
    ReadyFrom(scene.State(), k, c);
    h := HeadStates(s1, s2, s3, s4, s5, s6, s7, scene.State());
  }

  /** `limb`: the checks first, and on any failure nothing is created; then
      every stage in order.  `span` is the distance between the first and
      the last FK joint (the control size is a fifth of it), `lengthA` and
      `lengthB` the two segment lengths the IK stretch measures,
      `fkOffsets` the offsets the FK stretch reads, and `opm` whether the
      scene has `offsetParentMatrix`. */
  method Limb(scene: Scene, cfg: Config, span: real, lengthA: real, lengthB: real, fkOffsets: seq<real>, opm: bool)
    returns (res: Result<Rig, LimbError>, ghost h: HeadStates, ghost ts: TailStates, ghost n: IkStretchNodes,
             ghost links: seq<Option<FkStretchLink>>)
    requires scene.Valid()
    requires forall i :: 0 <= i < |cfg.guides| ==> cfg.guides[i] in scene.nodes
    requires cfg.poleVector != [] ==> cfg.poleVector in scene.nodes
    requires |fkOffsets| == |cfg.aliases|
    modifies scene
    ensures scene.Valid()
    ensures Validate(cfg).Failure? ==> res == Failure(Validate(cfg).error) && scene.State() == old(scene.State())
    ensures Validate(cfg).Success? ==>
              && res.Success?
              && HeadTrace(old(scene.State()), h, cfg, res.value.core, ControlSize(span))
              && StretchTrace(h.blend, ts.ikStretch, ts.fkStretch, cfg, res.value.core, lengthA, lengthB, fkOffsets, opm,
                              res.value.tail.stretch, n, links)
              && ts.finished == scene.State()
              && FileTrace(ts.fkStretch, ts.filed, ts.scaled, ts.finished, cfg, res.value.core, res.value.tail.stretch,
                           res.value.tail.groups, res.value.tail.globalScale, res.value.tail.visReverse,
                           res.value.tail.guide)
  {
    var v := Validate(cfg);
    if v.Failure? {
      ghost var s := scene.State();
      res, h, ts := Failure(v.error), HeadStates(s, s, s, s, s, s, s, s), TailStates(s, s, s, s, s);
      n, links := IkStretchNodes(MeasureNodes("", "", "", "", ""), "", "", ""), [];
      return;
    }
    ValidatedLabels(cfg);
    ghost var k := scene.nodes.Keys;
    var c;
    c, h := BuildHead(scene, k, cfg, ControlSize(span));
    var tl;
    tl, ts, n, links := FinishRig(scene, k, cfg, c, lengthA, lengthB, fkOffsets, opm);
    res := Success(Rig(c, tl));
  }
}
