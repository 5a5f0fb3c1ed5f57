/** The class form of the builder, `Limb` in simpleLimbClass.py: the
    constructor keeps and checks the arguments, `build_limb` runs the
    stages, each of which leaves what it made in the object's fields. */
module SimpleLimbClass {
  import opened Common
  import opened Names
  import opened SceneGraph
  import opened Axis
  import opened Chains
  import opened Controls
  import opened Settings
  import opened Stretch
  import opened Hierarchy
  import opened Finalize
  import opened Pipeline

  /** The first part of `build_limb`, in its order: the three chains, the
      FK controls, the IK controls, the settings control, the switch and
      then the IK handle, starting from `s0`; `r` is the control size. */
  ghost predicate ClassHeadTrace(s0: SceneState, h: HeadStates, cfg: Config, c: Core, r: real)
  {
    && cfg.primaryAxis != [] && cfg.upAxis != [] && |cfg.guides| == 3
    && |c.ik| == 3 && |c.fk| == 3 && |c.bind| == 3 && |c.fkCtrls| == 3 && |c.fkOffs| == 3 && |c.blends| == 9
    && h.ik == Chained(s0, cfg.guides, c.ik)
    && h.fk == Chained(h.ik, cfg.guides, c.fk)
    && h.bind == Chained(h.fk, cfg.guides, c.bind)
    && h.fkCtrls == FkControls(h.bind, Base(cfg), c.fk, c.fkCtrls, c.fkOffs)
    && h.ikCtrls == IkControls(h.fkCtrls, Base(cfg), LastChar(cfg.primaryAxis), r, c.ik[0], c.ikCtrls)
    && h.settings == SettingsControlStep(h.ikCtrls, Base(cfg), cfg.upAxis, r, c.bind[2], c.settings, c.settingsOff)
    && h.blend == Blended(h.settings, Base(cfg), c.ik, c.fk, c.bind, c.blends)
    && h.ikh == IkHandleStep(h.blend, c.ik[0], c.ik[2], c.ikCtrls.local, c.ikCtrls.pv, c.ikh)
  }

  /** The stages of the first part of `build_limb`, in its order. */
  method ClassHead(scene: Scene, ghost k: set<string>, cfg: Config, r: real) returns (c: Core, ghost h: HeadStates)
    requires Extends(scene.State(), k)
    requires |cfg.guides| == 3 && |cfg.aliases| == 3 && cfg.primaryAxis != [] && cfg.upAxis != []
    modifies scene
    ensures h.ikh == scene.State()
    ensures Ready(h.ikh, k, c)
    ensures ClassHeadTrace(old(scene.State()), h, cfg, c, r)
  {
    var ik, fk, bind;
    ghost var s1, s2;
    ik, fk, bind, s1, s2 := MakeChains(scene, k, cfg.side, cfg.guides, cfg.aliases);
    ghost var s3 := scene.State();
    var ctrls, offs := MakeFkControls(scene, k, cfg.side, Base(cfg), cfg.aliases, fk);
    ghost var s4 := scene.State();
    c := MakeIkControls(scene, k, cfg.side, Base(cfg), cfg.aliases[0], cfg.primaryAxis, r,
                        Core(ik, fk, bind, ctrls, offs, IkControlSet("", "", "", "", ""), "", "", [], ""));
    ghost var s5 := scene.State();
    var st, off := MakeSettings(scene, k, Base(cfg), cfg.upAxis, r, c);
    c := c.(settings := st, settingsOff := off);
    ghost var s6 := scene.State();
    var bcns := MakeBlend(scene, k, Base(cfg), c);
    c := c.(blends := bcns);
    ghost var s7 := scene.State();
    var ikh := MakeHandle(scene, k, Base(cfg), c);
    c := c.(ikh := ikh);
    ReadyFrom(scene.State(), k, c);
    h := HeadStates(s1, s2, s3, s4, s5, scene.State(), s6, s7);
  }

  class Limb {
    // The arguments, kept as given.
    const side: string
    const part: string
    const jointList: seq<string>
    const aliasList: seq<string>
    const poleVector: string
    const removeGuides: bool
    const addStretch: bool
    const colorDict: ColorDict
    const primaryAxis: string
    const upAxis: string
    const baseName: string
    const pa: Vec3
    const ua: Vec3

    // What `build_limb` makes.  The FK top group is `fkOffs[0]`; the
    // blend nodes and the IK handle are locals of the source, kept here so
    // that the contracts can name them.
    var ikChain: seq<string>
    var fkChain: seq<string>
    var bindChain: seq<string>
    var r: real
    var fkCtrls: seq<string>
    var fkOffs: seq<string>
    var ikCtrls: IkControlSet
    var settingsCtrl: string
    var settingsOff: string
    var blends: seq<string>
    var ikh: string
    var noXformList: seq<string>
    var stretch: Option<IkStretch>
    var groups: Groups

    /** The arguments as one record. */
    function Cfg(): Config
    {
      Config(side, part, jointList, aliasList, poleVector, removeGuides, addStretch, colorDict, primaryAxis, upAxis)
    }

    /** The chains, controls and switch the fields name. */
    function Made(): Core
      reads this`ikChain, this`fkChain, this`bindChain, this`fkCtrls, this`fkOffs, this`ikCtrls,
            this`settingsCtrl, this`settingsOff, this`blends, this`ikh
    {
      Core(ikChain, fkChain, bindChain, fkCtrls, fkOffs, ikCtrls, settingsCtrl, settingsOff, blends, ikh)
    }

    /** The arguments passed the constructor's checks. */
    ghost predicate Checked()
    {
      && Validate(Cfg()).Success?
      && baseName == Base(Cfg())
      && (pa, ua) == Validate(Cfg()).value
    }

    constructor (side: string, part: string, jointList: seq<string>, aliasList: seq<string>, poleVector: string,
                 removeGuides: bool, addStretch: bool, colorDict: ColorDict, primaryAxis: string, upAxis: string)
      requires Validate(Config(side, part, jointList, aliasList, poleVector, removeGuides, addStretch, colorDict,
                               primaryAxis, upAxis)).Success?
      ensures Cfg() == Config(side, part, jointList, aliasList, poleVector, removeGuides, addStretch, colorDict,
                              primaryAxis, upAxis)
      ensures Checked()
    {
      var cfg := Config(side, part, jointList, aliasList, poleVector, removeGuides, addStretch, colorDict,
                        primaryAxis, upAxis);
      var axes := Validate(cfg).value;
      this.side, this.part, this.jointList, this.aliasList := side, part, jointList, aliasList;
      this.poleVector, this.removeGuides, this.addStretch, this.colorDict := poleVector, removeGuides, addStretch, colorDict;
      this.primaryAxis, this.upAxis := primaryAxis, upAxis;
      this.baseName := Base(cfg);
      this.pa, this.ua := axes.0, axes.1;
    }

    /** `Limb(...)`: the checks of `__init__`, in their order; an object
        exists only when all of them pass. */
    static method New(side: string, part: string, jointList: seq<string>, aliasList: seq<string>, poleVector: string,
                      removeGuides: bool, addStretch: bool, colorDict: ColorDict, primaryAxis: string, upAxis: string)
      returns (res: Result<Limb, LimbError>)
      ensures var cfg := Config(side, part, jointList, aliasList, poleVector, removeGuides, addStretch, colorDict,
                                primaryAxis, upAxis);
        && (res.Success? <==> Validate(cfg).Success?)
        && (res.Failure? ==> res.error == Validate(cfg).error)
        && (res.Success? ==> fresh(res.value) && res.value.Cfg() == cfg && res.value.Checked())
    {
      var cfg := Config(side, part, jointList, aliasList, poleVector, removeGuides, addStretch, colorDict,
                        primaryAxis, upAxis);
      var v := Validate(cfg);
      if v.Failure? {
        return Failure(v.error);
      }
      var limb := new Limb(side, part, jointList, aliasList, poleVector, removeGuides, addStretch, colorDict,
                           primaryAxis, upAxis);
      res := Success(limb);
    }

    /** `build_limb`, given the distance `span` from the first to the last
        FK joint, the two segment lengths the IK stretch measures, the
        offsets the FK stretch reads and whether the scene has
        `offsetParentMatrix`. */
    method BuildLimb(scene: Scene, span: real, lengthA: real, lengthB: real, fkOffsets: seq<real>, opm: bool)
      returns (c: Core, ghost tl: Tail, ghost h: HeadStates, ghost ts: TailStates, ghost n: IkStretchNodes,
               ghost links: seq<Option<FkStretchLink>>)
      requires Checked()
      requires scene.Valid()
      requires forall i :: 0 <= i < |jointList| ==> jointList[i] in scene.nodes
      requires poleVector in scene.nodes
      requires |fkOffsets| == 3
      modifies this, scene
      ensures scene.Valid() && ts.finished == scene.State()
      ensures Made() == c && r == ControlSize(span)
      ensures tl.stretch == stretch && tl.groups == groups && noXformList == NoXformList(c, stretch)
      ensures ClassHeadTrace(old(scene.State()), h, Cfg(), c, ControlSize(span))
      ensures StretchTrace(h.ikh, ts.ikStretch, ts.fkStretch, Cfg(), c, lengthA, lengthB, fkOffsets, opm, tl.stretch, n,
                           links)
      ensures FileTrace(ts.fkStretch, ts.filed, ts.scaled, ts.finished, Cfg(), c, tl.stretch, tl.groups, tl.globalScale,
                        tl.visReverse, tl.guide)
    {
      ghost var k := scene.nodes.Keys;
      c, h := BuildHead(scene, k, span);
      tl, ts, n, links := BuildTail(scene, k, h.ikh, c, lengthA, lengthB, fkOffsets, opm);
    }

    /** The chains, the controls, the switch and the IK handle; what they
        made is then kept in the fields. */
    method BuildHead(scene: Scene, ghost k: set<string>, span: real) returns (c: Core, ghost h: HeadStates)
      requires Checked() && Extends(scene.State(), k)
      modifies scene, this`ikChain, this`fkChain, this`bindChain, this`r, this`fkCtrls, this`fkOffs, this`ikCtrls,
               this`settingsCtrl, this`settingsOff, this`blends, this`ikh
      ensures Made() == c && r == ControlSize(span)
      ensures h.ikh == scene.State()
      ensures Ready(h.ikh, k, c)
      ensures ClassHeadTrace(old(scene.State()), h, Cfg(), c, ControlSize(span))
    {
      ValidatedLabels(Cfg());
      c, h := ClassHead(scene, k, Cfg(), ControlSize(span));
      StoreHead(scene, c, ControlSize(span));
    }

    /** Keeps the names the first part of the build made, and the control
        size, in the fields. */
    method StoreHead(scene: Scene, c: Core, size: real)
      modifies this`ikChain, this`fkChain, this`bindChain, this`r, this`fkCtrls, this`fkOffs, this`ikCtrls,
               this`settingsCtrl, this`settingsOff, this`blends, this`ikh
      ensures Made() == c && r == size
      ensures scene.State() == old(scene.State())
    {
      ikChain, fkChain, bindChain, r := c.ik, c.fk, c.bind, size;
      fkCtrls, fkOffs, ikCtrls := c.fkCtrls, c.fkOffs, c.ikCtrls;
      settingsCtrl, settingsOff, blends, ikh := c.settings, c.settingsOff, c.blends, c.ikh;
    }

    /** Stretch (when asked for), filing, global scale and `finalize`; what
        they made is then kept in the fields. */
    method BuildTail(scene: Scene, ghost k: set<string>, ghost s0: SceneState, c: Core, lengthA: real, lengthB: real,
                     fkOffsets: seq<real>, opm: bool)
      returns (ghost tl: Tail, ghost ts: TailStates, ghost n: IkStretchNodes, ghost links: seq<Option<FkStretchLink>>)
      requires Checked() && Made() == c && s0 == scene.State() && Ready(s0, k, c)
      requires forall i :: 0 <= i < |jointList| ==> jointList[i] in k
      requires poleVector in k && |fkOffsets| == 3
      modifies scene, this`noXformList, this`stretch, this`groups
      ensures scene.Valid() && ts.finished == scene.State() && Made() == c && r == old(r)
      ensures StretchTrace(s0, ts.ikStretch, ts.fkStretch, Cfg(), c, lengthA, lengthB, fkOffsets,
                           opm, tl.stretch, n, links)
      ensures FileTrace(ts.fkStretch, ts.filed, ts.scaled, ts.finished, Cfg(), c, tl.stretch, tl.groups,
                        tl.globalScale, tl.visReverse, tl.guide)
      ensures tl.stretch == stretch && tl.groups == groups && noXformList == NoXformList(c, stretch)
    {
      ValidatedLabels(Cfg());
      var t;
      t, ts, n, links := FinishRig(scene, k, Cfg(), c, lengthA, lengthB, fkOffsets, opm);
      StoreTail(scene, c.ikh, t.stretch, t.groups);
      tl := t;
    }

    /** `self.no_xform_list = [ikh]`, extended by the two measuring
        locators when the IK stretch was made, and the stretch and group
        names. */
    method StoreTail(scene: Scene, ikh: string, st: Option<IkStretch>, g: Groups)
      modifies this`noXformList, this`stretch, this`groups
      ensures scene.State() == old(scene.State()) && Made() == old(Made()) && r == old(r)
      ensures noXformList == [ikh] + (if st.Some? then st.value.measureLocs else [])
      ensures stretch == st && groups == g
    {
      noXformList := [ikh];
      stretch := st;
      if st.Some? {
        noXformList := noXformList + st.value.measureLocs;
      }
      groups := g;
    }
  }
}
