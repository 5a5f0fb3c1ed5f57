/** What both forms of the builder share: the checks made before anything
    is built, the record of what the build made, and the last four stages
    (stretch, filing, global scale, finishing), which run in the same order
    in `limb` and in `Limb.build_limb`. */
module Pipeline {
  import opened Common
  import opened Names
  import opened SceneGraph
  import opened Axis
  import opened Chains
  import opened Controls
  import opened Settings
  import opened Stretch
  import opened Hierarchy
  import opened Finalize

  // ---------------------------------------------------------------------
  // Arguments and their checks
  // ---------------------------------------------------------------------

  /** The keyword arguments of `limb` and of `Limb.__init__`.  The pole
      vector guide is a name; the empty name stands for the default `None`,
      both being false to `not pole_vector`.  The colour dictionary's
      default `False` is the empty map, equally false. */
  datatype Config = Config(side: string, part: string, guides: seq<string>, aliases: seq<string>, poleVector: string,
                           removeGuides: bool, addStretch: bool, colorDict: ColorDict,
                           primaryAxis: string, upAxis: string)

  function Base(cfg: Config): string
  {
    BaseName(cfg.side, cfg.part)
  }

  /** Why a build stops before it starts: each `cmds.error` of the checks,
      including `define_axis`'s on a label that does not end in X, Y or Z,
      and the `IndexError` it raises on an empty label. */
  datatype LimbError = GuideCount | AliasCount | NoPoleVector | BadAxis(axis: string, reason: AxisError)

  /** The checks, in their order: three guides, three aliases, a pole
      vector, then the primary and the up axis.  On success, the two axis
      vectors. */
  function Validate(cfg: Config): (r: Result<(Vec3, Vec3), LimbError>)
    ensures r.Success? <==> && |cfg.guides| == 3 && |cfg.aliases| == 3 && cfg.poleVector != []
                            && DefineAxis(cfg.primaryAxis).Success? && DefineAxis(cfg.upAxis).Success?
    ensures r.Success? ==> r.value == (DefineAxis(cfg.primaryAxis).value, DefineAxis(cfg.upAxis).value)
    ensures |cfg.guides| != 3 ==> r == Failure(GuideCount)
    ensures |cfg.guides| == 3 && |cfg.aliases| != 3 ==> r == Failure(AliasCount)
    ensures |cfg.guides| == 3 && |cfg.aliases| == 3 && cfg.poleVector == [] ==> r == Failure(NoPoleVector)
    ensures r.Failure? && r.error.BadAxis? ==>
              && |cfg.guides| == 3 && |cfg.aliases| == 3 && cfg.poleVector != []
              && (if DefineAxis(cfg.primaryAxis).Failure?
                  then r.error == BadAxis(cfg.primaryAxis, DefineAxis(cfg.primaryAxis).error)
                  else r.error == BadAxis(cfg.upAxis, DefineAxis(cfg.upAxis).error))
  {
    if |cfg.guides| != 3 then Failure(GuideCount)
    else if |cfg.aliases| != 3 then Failure(AliasCount)
    else if cfg.poleVector == [] then Failure(NoPoleVector)
    else
      match DefineAxis(cfg.primaryAxis)
      case Failure(e) => Failure(BadAxis(cfg.primaryAxis, e))
      case Success(pa) =>
        match DefineAxis(cfg.upAxis)
        case Failure(e) => Failure(BadAxis(cfg.upAxis, e))
        case Success(ua) => Success((pa, ua))
  }

  /** The size of the controls: a fifth of `span`, the distance between
      the first and the last FK joint. */
  function ControlSize(span: real): (r: real)
    ensures span > 0.0 ==> 0.0 < r < span
  {
    span / 5.0
  }

  /** Arguments that pass the checks give labels every stage can read the
      axis letter of. */
  lemma ValidatedLabels(cfg: Config)
    requires Validate(cfg).Success?
    ensures cfg.primaryAxis != [] && cfg.upAxis != []
    ensures IsAxisLetter(LastChar(cfg.primaryAxis)) && IsAxisLetter(LastChar(cfg.upAxis))
    ensures |cfg.guides| == 3 && |cfg.aliases| == 3 && cfg.poleVector != []
  {
  }

  // ---------------------------------------------------------------------
  // What the build made
  // ---------------------------------------------------------------------

  /** No attribute has been added to node `n` yet. */
  ghost predicate Bare(attrs: map<Plug, Range>, n: string)
  {
    forall a :: Plug(n, a) !in attrs
  }

  /** A node that is not in a well-formed scene carries no attribute. */
  lemma NewNodeBare(s: SceneState, n: string)
    requires WellFormed(s) && n !in s.nodes
    ensures Bare(s.attrs, n)
  {
  }

  /** An attribute added to another node leaves `n` bare. */
  lemma BareKept(attrs: map<Plug, Range>, p: Plug, r: Range, n: string)
    requires Bare(attrs, n) && p.node != n
    ensures Bare(attrs[p := r], n)
  {
  }

  /** The chains, controls and switch, made before the last four stages. */
  datatype Core = Core(ik: seq<string>, fk: seq<string>, bind: seq<string>, fkCtrls: seq<string>, fkOffs: seq<string>,
                       ikCtrls: IkControlSet, settings: string, settingsOff: string, blends: seq<string>, ikh: string)

  /** Every node of `c` is in the scene and was made by the build. */
  ghost predicate Built(nodes: set<string>, k: set<string>, c: Core)
  {
    && Present(c.ik, nodes, k) && Present(c.fk, nodes, k) && Present(c.bind, nodes, k)
    && Present(c.fkCtrls, nodes, k) && Present(c.fkOffs, nodes, k) && Present(IkNames(c.ikCtrls), nodes, k)
    && c.settings in nodes && c.settings !in k && c.settingsOff in nodes && c.settingsOff !in k
    && Present(c.blends, nodes, k)
    && c.ikh in nodes && c.ikh !in k
  }

  /** The nodes of `c` stay when the scene keeps every node the build made. */
  lemma BuiltKept(a: set<string>, b: set<string>, k: set<string>, c: Core)
    requires Built(a, k, c) && a - k <= b
    ensures Built(b, k, c)
  {
  }

  /** What the last four stages need of the scene the first ones leave. */
  ghost predicate Ready(s: SceneState, k: set<string>, c: Core)
  {
    && Extends(s, k)
    && |c.ik| == 3 && |c.fk| == 3 && |c.bind| == 3 && |c.fkCtrls| == 3 && |c.fkOffs| == 3
    && Built(s.nodes.Keys, k, c)
    && Distinct(c.fkCtrls)
    && (forall i :: 0 <= i < 3 ==> OffsetName(c.fkCtrls[i]) in s.nodes)
    && Bare(s.attrs, c.ikCtrls.world)
    && (forall i :: 0 <= i < 3 ==> Bare(s.attrs, c.fkCtrls[i]) && c.fkCtrls[i] != c.ikCtrls.world)
  }

  // ---------------------------------------------------------------------
  // What each stage does to the node and attribute tables
  // ---------------------------------------------------------------------

  lemma NodesOfKeys(names: seq<string>, t: NodeType)
    ensures NodesOf(names, t).Keys == Elems(names)
  {
  }

  lemma ChainedTables(s: SceneState, guides: seq<string>, chain: seq<string>)
    requires |chain| <= |guides|
    ensures Chained(s, guides, chain).nodes.Keys == s.nodes.Keys + Elems(chain)
    ensures Chained(s, guides, chain).attrs == s.attrs
  {
    NodesOfKeys(chain, Joint);
  }

  lemma BlendedTables(s: SceneState, base: string, ik: seq<string>, fk: seq<string>, bind: seq<string>, bcns: seq<string>)
    requires |bcns| <= 3 * Min3(|ik|, |fk|, |bind|)
    ensures Blended(s, base, ik, fk, bind, bcns).nodes.Keys == s.nodes.Keys + Elems(bcns)
    ensures Blended(s, base, ik, fk, bind, bcns).attrs == s.attrs
  {
    NodesOfKeys(bcns, BlendColors);
  }

  lemma FkControlsTables(s: SceneState, base: string, fk: seq<string>, ctrls: seq<string>, offs: seq<string>)
    requires |ctrls| == |offs| <= |fk|
    requires Elems(ctrls) !! Elems(offs)
    ensures FkControls(s, base, fk, ctrls, offs).nodes.Keys == s.nodes.Keys + Elems(ctrls) + Elems(offs)
    ensures FkControls(s, base, fk, ctrls, offs).attrs == s.attrs
  {
    FkControlsNodes(s, base, fk, ctrls, offs);
    FkControlsAttrs(s, base, fk, ctrls, offs);
    NodesOfKeys(ctrls, Curve);
    NodesOfKeys(offs, Group);
  }

  /** A fresh sequence of names lands in the scene as nodes the build made. */
  lemma FreshPresent(names: seq<string>, before: set<string>, after: set<string>, k: set<string>)
    requires FreshNames(names, before) && k <= before && Elems(names) <= after
    ensures Present(names, after, k)
  {
    forall i | 0 <= i < |names| ensures names[i] in after && names[i] !in k {
      assert names[i] in Elems(names);
    }
  }

  // ---------------------------------------------------------------------
  // create fk, ik, and bind chain
  // ---------------------------------------------------------------------

  /** The three joint chains, made in the order IK, FK, bind; `s1` and `s2`
      are the scene after the first and the second. */
  method MakeChains(scene: Scene, ghost k: set<string>, side: string, guides: seq<string>, aliases: seq<string>)
    returns (ik: seq<string>, fk: seq<string>, bind: seq<string>, ghost s1: SceneState, ghost s2: SceneState)
    requires Extends(scene.State(), k)
    requires |guides| == 3 && |aliases| == 3
    modifies scene
    ensures Extends(scene.State(), k)
    ensures |ik| == 3 && |fk| == 3 && |bind| == 3
    ensures Present(ik, scene.nodes.Keys, k) && Present(fk, scene.nodes.Keys, k) && Present(bind, scene.nodes.Keys, k)
    ensures old(scene.nodes.Keys) <= scene.nodes.Keys && scene.attrs == old(scene.attrs)
    ensures s1 == Chained(old(scene.State()), guides, ik) && s2 == Chained(s1, guides, fk)
    ensures scene.State() == Chained(s2, guides, bind)
  {
    var s0 := scene.State();
    ik := CreateChain(scene, k, side, guides, aliases, "IK");
    s1 := scene.State();
    ChainedTables(s0, guides, ik);
    fk := CreateChain(scene, k, side, guides, aliases, "FK");
    s2 := scene.State();
    ChainedTables(s1, guides, fk);
    bind := CreateChain(scene, k, side, guides, aliases, "bind");
    ChainedTables(s2, guides, bind);
    FreshPresent(ik, s0.nodes.Keys, scene.nodes.Keys, k);
    FreshPresent(fk, s1.nodes.Keys, scene.nodes.Keys, k);
    FreshPresent(bind, s2.nodes.Keys, scene.nodes.Keys, k);
  }

  // ---------------------------------------------------------------------
  // create fk and ik controls, the ik handle, the settings control and
  // the switch
  // ---------------------------------------------------------------------

  /** The scene after each stage of the first part of the build. */
  datatype HeadStates = HeadStates(ik: SceneState, fk: SceneState, bind: SceneState, fkCtrls: SceneState,
                                   ikCtrls: SceneState, ikh: SceneState, settings: SceneState, blend: SceneState)

  /** What the chains and the FK and IK controls of `c` leave for the
      stages after them; the other fields of `c` are not read. */
  ghost predicate ControlsReady(s: SceneState, k: set<string>, c: Core)
  {
    && Extends(s, k)
    && |c.ik| == 3 && |c.fk| == 3 && |c.bind| == 3 && |c.fkCtrls| == 3 && |c.fkOffs| == 3
    && Present(c.ik, s.nodes.Keys, k) && Present(c.fk, s.nodes.Keys, k) && Present(c.bind, s.nodes.Keys, k)
    && Present(c.fkCtrls, s.nodes.Keys, k) && Present(c.fkOffs, s.nodes.Keys, k)
    && Present(IkNames(c.ikCtrls), s.nodes.Keys, k)
    && Distinct(c.fkCtrls)
    && (forall i :: 0 <= i < 3 ==> OffsetName(c.fkCtrls[i]) in s.nodes)
    && Bare(s.attrs, c.ikCtrls.world)
    && (forall i :: 0 <= i < 3 ==> Bare(s.attrs, c.fkCtrls[i]) && c.fkCtrls[i] != c.ikCtrls.world)
  }

  /** A stage that keeps every node and adds an attribute to no node of the
      scene before it keeps `ControlsReady`. */
  lemma ControlsReadyKept(s: SceneState, t: SceneState, k: set<string>, c: Core)
    requires ControlsReady(s, k, c) && Extends(t, k) && s.nodes.Keys <= t.nodes.Keys
    requires forall x :: x in s.nodes && Bare(s.attrs, x) ==> Bare(t.attrs, x)
    ensures ControlsReady(t, k, c)
  {
    var w := c.ikCtrls;
    assert w.world == IkNames(w)[0];
    forall i | 0 <= i < 3 ensures Bare(t.attrs, c.fkCtrls[i]) {
      assert c.fkCtrls[i] in s.nodes;
    }
  }

  /** Everything the first part of the build made is in place for the
      last four stages. */
  lemma ReadyFrom(s: SceneState, k: set<string>, c: Core)
    requires ControlsReady(s, k, c)
    requires c.settings in s.nodes && c.settings !in k && c.settingsOff in s.nodes && c.settingsOff !in k
    requires Present(c.blends, s.nodes.Keys, k) && c.ikh in s.nodes && c.ikh !in k
    ensures Ready(s, k, c)
  {
  }

  /** `create_fk_controls` after the chains. */
  method MakeFkControls(scene: Scene, ghost k: set<string>, side: string, base: string, aliases: seq<string>, fk: seq<string>)
    returns (ctrls: seq<string>, offs: seq<string>)
    requires Extends(scene.State(), k)
    requires |aliases| == 3 && |fk| == 3 && Present(fk, scene.nodes.Keys, k)
    modifies scene
    ensures Extends(scene.State(), k)
    ensures old(scene.nodes.Keys) <= scene.nodes.Keys && scene.attrs == old(scene.attrs)
    ensures |ctrls| == 3 && |offs| == 3 && Distinct(ctrls)
    ensures Present(ctrls, scene.nodes.Keys, k) && Present(offs, scene.nodes.Keys, k)
    ensures forall i :: 0 <= i < 3 ==> OffsetName(ctrls[i]) in scene.nodes && Bare(scene.attrs, ctrls[i])
    ensures scene.State() == FkControls(old(scene.State()), base, fk, ctrls, offs)
  {
    ghost var s0 := scene.State();
    ctrls, offs := CreateFkControls(scene, k, side, base, aliases, fk);
    FkControlsTables(s0, base, fk, ctrls, offs);
    FreshPresent(ctrls, s0.nodes.Keys, scene.nodes.Keys, k);
    FreshPresent(offs, s0.nodes.Keys, scene.nodes.Keys, k);
    forall i | 0 <= i < 3 ensures Bare(scene.attrs, ctrls[i]) {
      NewNodeBare(s0, ctrls[i]);
    }
  }

  /** `create_ik_controls` after the FK controls: the chains and FK
      controls are ready once the IK controls exist. */
  method MakeIkControls(scene: Scene, ghost k: set<string>, side: string, base: string, alias0: string, primaryAxis: string,
                        r: real, c0: Core)
    returns (c: Core)
    requires Extends(scene.State(), k) && primaryAxis != []
    requires |c0.ik| == 3 && |c0.fk| == 3 && |c0.bind| == 3 && |c0.fkCtrls| == 3 && |c0.fkOffs| == 3
    requires Present(c0.ik, scene.nodes.Keys, k) && Present(c0.fk, scene.nodes.Keys, k) && Present(c0.bind, scene.nodes.Keys, k)
    requires Present(c0.fkCtrls, scene.nodes.Keys, k) && Present(c0.fkOffs, scene.nodes.Keys, k) && Distinct(c0.fkCtrls)
    requires forall i :: 0 <= i < 3 ==> OffsetName(c0.fkCtrls[i]) in scene.nodes && Bare(scene.attrs, c0.fkCtrls[i])
    modifies scene
    ensures c == c0.(ikCtrls := c.ikCtrls)
    ensures ControlsReady(scene.State(), k, c)
    ensures old(scene.nodes.Keys) <= scene.nodes.Keys
    ensures FreshNames(IkNames(c.ikCtrls), old(scene.nodes.Keys))
    ensures scene.State() == IkControls(old(scene.State()), base, LastChar(primaryAxis), r, c.ik[0], c.ikCtrls)
  {
    ghost var s0 := scene.State();
    assert c0.ik[0] in scene.nodes;
    var ic := CreateIkControls(scene, k, side, base, alias0, primaryAxis, r, c0.ik);
    c := c0.(ikCtrls := ic);
    IkControlsNodes(s0, base, LastChar(primaryAxis), r, c0.ik[0], ic);
    FreshPresent(IkNames(ic), s0.nodes.Keys, scene.nodes.Keys, k);
    assert ic.world == IkNames(ic)[0];
    NewNodeBare(s0, ic.world);
    forall i | 0 <= i < 3 ensures c.fkCtrls[i] != ic.world {
      assert c.fkCtrls[i] in s0.nodes;
    }
  }

  /** The IK handle, over the whole IK chain. */
  method MakeHandle(scene: Scene, ghost k: set<string>, base: string, c: Core) returns (ikh: string)
    requires ControlsReady(scene.State(), k, c)
    modifies scene
    ensures ControlsReady(scene.State(), k, c)
    ensures old(scene.nodes.Keys) <= scene.nodes.Keys && ikh in scene.nodes && ikh !in old(scene.nodes)
    ensures IkHandleName(base) !in old(scene.nodes) ==> ikh == IkHandleName(base)
    ensures scene.State() == IkHandleStep(old(scene.State()), c.ik[0], c.ik[2], c.ikCtrls.local, c.ikCtrls.pv, ikh)
  {
    ghost var s0 := scene.State();
    var w := c.ikCtrls;
    assert w.local == IkNames(w)[1] && w.pv == IkNames(w)[3];
    assert c.ik[0] in scene.nodes && c.ik[2] in scene.nodes;
    ikh := CreateIkHandle(scene, k, base, c.ik, w.local, w.pv);
    ControlsReadyKept(s0, scene.State(), k, c);
  }

  /** The settings control; only its own new node gets an attribute. */
  method MakeSettings(scene: Scene, ghost k: set<string>, base: string, up: string, r: real, c: Core)
    returns (st: string, off: string)
    requires ControlsReady(scene.State(), k, c) && up != []
    modifies scene
    ensures ControlsReady(scene.State(), k, c)
    ensures old(scene.nodes.Keys) <= scene.nodes.Keys
    ensures st in scene.nodes && st !in old(scene.nodes) && off in scene.nodes && off !in old(scene.nodes) && st != off
    ensures SettingsCtrlName(base) in scene.nodes
    ensures SettingsCtrlName(base) !in old(scene.nodes) ==> st == SettingsCtrlName(base)
    ensures OffsetName(st) !in old(scene.nodes) ==> off == OffsetName(st)
    ensures scene.State() == SettingsControlStep(old(scene.State()), base, up, r, c.bind[2], st, off)
  {
    ghost var s0 := scene.State();
    assert c.bind[2] in scene.nodes;
    st, off := CreateSettingsControl(scene, k, base, up, r, c.bind[2]);
    forall x | x in s0.nodes && Bare(s0.attrs, x) ensures Bare(scene.attrs, x) {
      BareKept(s0.attrs, Plug(st, "fkIk"), FkIkRange, x);
    }
    ControlsReadyKept(s0, scene.State(), k, c);
  }

  /** The switch: nine blend nodes over the three chains. */
  method MakeBlend(scene: Scene, ghost k: set<string>, base: string, c: Core) returns (bcns: seq<string>)
    requires ControlsReady(scene.State(), k, c) && SettingsCtrlName(base) in scene.nodes
    modifies scene
    ensures ControlsReady(scene.State(), k, c)
    ensures old(scene.nodes.Keys) <= scene.nodes.Keys
    ensures |bcns| == 9 && Present(bcns, scene.nodes.Keys, k)
    ensures scene.State() == Blended(old(scene.State()), base, c.ik, c.fk, c.bind, bcns)
  {
    ghost var s0 := scene.State();
    bcns := BlendChains(scene, k, base, c.ik, c.fk, c.bind);
    BlendedTables(s0, base, c.ik, c.fk, c.bind, bcns);
    FreshPresent(bcns, s0.nodes.Keys, scene.nodes.Keys, k);
    ControlsReadyKept(s0, scene.State(), k, c);
  }

  // ---------------------------------------------------------------------
  // add stretch, organize, compensate for global scale, finalize
  // ---------------------------------------------------------------------

  lemma IkStretchTables(s: SceneState, n: IkStretchNodes, world: string, baseCtrl: string, local: string, part: string,
                        ik0: string, ik1: string, letter: char, lt: real)
    ensures var t := IkStretchStep(s, n, world, baseCtrl, local, part, ik0, ik1, letter, lt);
      && s.nodes.Keys <= t.nodes.Keys
      && n.m.startLoc in t.nodes && n.m.endLoc in t.nodes && n.m.mdn in t.nodes && n.m.cnd in t.nodes
      && (forall x :: x != world && Bare(s.attrs, x) ==> Bare(t.attrs, x))
  {
  }

  /** The nodes that must not inherit transforms: the IK handle and, with
      stretch, the two measuring locators. */
  function NoXformList(c: Core, st: Option<IkStretch>): seq<string>
  {
    [c.ikh] + (if st.Some? then st.value.measureLocs else [])
  }

  /** The parts `organize_hierarchy` files into the groups. */
  function Parts(c: Core, noXform: seq<string>): RigParts
    requires |c.ik| > 0 && |c.fk| > 0 && |c.bind| > 0 && |c.fkOffs| > 0
  {
    RigParts(c.ikCtrls.world, c.ikCtrls.pv, c.ikCtrls.baseCtrl, c.fkOffs[0], c.bind[0], noXform, c.fk[0], c.ik[0],
             c.settingsOff)
  }

  /** The controls `finalize` colours and locks. */
  function ControlsOf(c: Core): Finalize.Controls
  {
    Finalize.Controls(c.fkCtrls, c.ikCtrls.world, c.ikCtrls.local, c.ikCtrls.baseCtrl, c.ikCtrls.pv, c.settings)
  }

  /** `add_ik_stretch`, with what the later stages need of it. */
  method StretchIk(scene: Scene, ghost k: set<string>, base: string, part: string, primaryAxis: string, c: Core,
                   lengthA: real, lengthB: real)
    returns (st: IkStretch, ghost n: IkStretchNodes)
    requires Extends(scene.State(), k)
    requires |c.ik| == 3 && c.ik[0] in scene.nodes && c.ik[1] in scene.nodes
    requires c.ikCtrls.world in scene.nodes && c.ikCtrls.local in scene.nodes && c.ikCtrls.baseCtrl in scene.nodes
    requires Bare(scene.attrs, c.ikCtrls.world) && primaryAxis != []
    modifies scene
    ensures Extends(scene.State(), k)
    ensures old(scene.nodes.Keys) <= scene.nodes.Keys
    ensures forall x :: x != c.ikCtrls.world && Bare(old(scene.attrs), x) ==> Bare(scene.attrs, x)
    ensures st.measureLocs == [n.m.startLoc, n.m.endLoc] && n.m.startLoc !in old(scene.nodes) && n.m.endLoc !in old(scene.nodes)
    ensures n.m.startLoc in scene.nodes && n.m.endLoc in scene.nodes && st.mdn in scene.nodes && st.cnd in scene.nodes
    ensures st == Summary(n, st.lengthTotal) && st.lengthTotal == lengthA + lengthB
    ensures scene.State() == IkStretchStep(old(scene.State()), n, c.ikCtrls.world, c.ikCtrls.baseCtrl, c.ikCtrls.local, part,
                                           c.ik[0], c.ik[1], LastChar(primaryAxis), st.lengthTotal)
  {
    ghost var s0 := scene.State();
    var w := c.ikCtrls;
    st, n := AddIkStretch(scene, k, base, part, c.ik, w.baseCtrl, w.local, w.world, primaryAxis, lengthA, lengthB);
    IkStretchTables(s0, n, w.world, w.baseCtrl, w.local, part, c.ik[0], c.ik[1], LastChar(primaryAxis), st.lengthTotal);
    IkStretchFreshLocs(n, s0.nodes.Keys);
  }

  lemma IkStretchFreshLocs(n: IkStretchNodes, before: set<string>)
    requires IkStretchFresh(n, before)
    ensures n.m.startLoc !in before && n.m.endLoc !in before
  {
    assert n.m.startLoc == IkStretchNames(n)[2] && n.m.endLoc == IkStretchNames(n)[3];
  }

  lemma NoXformPresent(c: Core, st: IkStretch, a: string, b: string, nodes: set<string>, k: set<string>)
    requires c.ikh in nodes && c.ikh !in k && st.measureLocs == [a, b]
    requires a in nodes && a !in k && b in nodes && b !in k
    ensures Present(NoXformList(c, Some(st)), nodes, k)
  {
    assert NoXformList(c, Some(st)) == [c.ikh, a, b];
  }

  /** `add_ik_stretch` followed by `add_fk_stretch`. */
  method MakeStretch(scene: Scene, ghost k: set<string>, base: string, part: string, primaryAxis: string, c: Core,
                     lengthA: real, lengthB: real, fkOffsets: seq<real>, opm: bool)
    returns (st: IkStretch, ghost n: IkStretchNodes, ghost links: seq<Option<FkStretchLink>>, ghost mid: SceneState)
    requires Ready(scene.State(), k, c)
    requires primaryAxis != [] && |fkOffsets| == 3
    modifies scene
    ensures Extends(scene.State(), k)
    ensures old(scene.nodes.Keys) <= scene.nodes.Keys
    ensures Built(scene.nodes.Keys, k, c)
    ensures Present(NoXformList(c, Some(st)), scene.nodes.Keys, k) && st.mdn in scene.nodes && st.cnd in scene.nodes
    ensures st == Summary(n, st.lengthTotal) && st.lengthTotal == lengthA + lengthB
    ensures |links| == 3 && LinksFollowTest(c.fkCtrls, links, opm)
    ensures mid == IkStretchStep(old(scene.State()), n, c.ikCtrls.world, c.ikCtrls.baseCtrl, c.ikCtrls.local, part,
                                 c.ik[0], c.ik[1], LastChar(primaryAxis), st.lengthTotal)
    ensures scene.State() == FkStretches(mid, c.fkCtrls, c.fk, LastChar(primaryAxis), fkOffsets, links)
  {
    ghost var s0 := scene.State();
    var w := c.ikCtrls;
    assert w.world == IkNames(w)[0] && w.local == IkNames(w)[1] && w.baseCtrl == IkNames(w)[4];
    st, n := StretchIk(scene, k, base, part, primaryAxis, c, lengthA, lengthB);
    mid := scene.State();
    links := AddFkStretch(scene, k, c.fkCtrls, c.fk, primaryAxis, fkOffsets, opm);
    BuiltKept(s0.nodes.Keys, scene.nodes.Keys, k, c);
    NoXformPresent(c, st, n.m.startLoc, n.m.endLoc, scene.nodes.Keys, k);
  }

  /** The stretch stage, from `s0` through the IK stretch `s1` to the FK
      stretch `s2`; both steps are skipped when no stretch was asked for. */
  ghost predicate StretchTrace(s0: SceneState, s1: SceneState, s2: SceneState, cfg: Config, c: Core, lengthA: real,
                               lengthB: real, fkOffsets: seq<real>, opm: bool, st: Option<IkStretch>, n: IkStretchNodes,
                               links: seq<Option<FkStretchLink>>)
  {
    && |c.ik| == 3 && |c.fk| == 3 && |c.bind| == 3 && |c.fkCtrls| == 3 && |c.fkOffs| == 3
    && cfg.primaryAxis != [] && |links| == 3 && |fkOffsets| == 3
    && (st.Some? <==> cfg.addStretch)
    && (cfg.addStretch ==>
          && st.value == Summary(n, st.value.lengthTotal) && st.value.lengthTotal == lengthA + lengthB
          && LinksFollowTest(c.fkCtrls, links, opm))
    && s1 == (if cfg.addStretch
              then IkStretchStep(s0, n, c.ikCtrls.world, c.ikCtrls.baseCtrl, c.ikCtrls.local, cfg.part, c.ik[0], c.ik[1],
                                 LastChar(cfg.primaryAxis), st.value.lengthTotal)
              else s0)
    && s2 == (if cfg.addStretch then FkStretches(s1, c.fkCtrls, c.fk, LastChar(cfg.primaryAxis), fkOffsets, links) else s1)
  }

  /** Filing `s2` into groups (`s3`), global scale (`s4`) and `finalize` (`s5`). */
  ghost predicate FileTrace(s2: SceneState, s3: SceneState, s4: SceneState, s5: SceneState, cfg: Config, c: Core,
                            st: Option<IkStretch>, g: Groups, gs: Option<string>, rev: string, gd: Guide)
  {
    && |c.ik| == 3 && |c.fk| == 3 && |c.bind| == 3 && |c.fkOffs| == 3
    && s3 == OrganizeStep(s2, g, Parts(c, NoXformList(c, st)))
    && s4 == GlobalScaleStep(s3, g.all, st, gs)
    && s5 == FinalizeStep(s4, cfg.side, Base(cfg), cfg.colorDict, ControlsOf(c), g, c.ik[1], rev,
                          gd, cfg.guides + [cfg.poleVector], cfg.removeGuides)
  }

  /** The scene after the IK stretch, the FK stretch, the filing, the
      global scale and the finishing stages. */
  datatype TailStates = TailStates(ikStretch: SceneState, fkStretch: SceneState, filed: SceneState, scaled: SceneState,
                                   finished: SceneState)

  /** What the last four stages made. */
  datatype Tail = Tail(stretch: Option<IkStretch>, groups: Groups, globalScale: Option<string>, visReverse: string, guide: Guide)

  /** Stretch (when asked for), filing into groups, global scale and
      `finalize`, in that order. */
  method FinishRig(scene: Scene, ghost k: set<string>, cfg: Config, c: Core, lengthA: real, lengthB: real,
                   fkOffsets: seq<real>, opm: bool)
    returns (tl: Tail, ghost ts: TailStates, ghost n: IkStretchNodes, ghost links: seq<Option<FkStretchLink>>)
    requires Ready(scene.State(), k, c)
    requires cfg.primaryAxis != [] && |fkOffsets| == 3
    requires forall i :: 0 <= i < |cfg.guides| ==> cfg.guides[i] in k
    requires cfg.poleVector in k
    modifies scene
    ensures scene.Valid()
    ensures StretchTrace(old(scene.State()), ts.ikStretch, ts.fkStretch, cfg, c, lengthA, lengthB, fkOffsets, opm,
                         tl.stretch, n, links)
    ensures ts.finished == scene.State()
    ensures FileTrace(ts.fkStretch, ts.filed, ts.scaled, ts.finished, cfg, c, tl.stretch, tl.groups, tl.globalScale,
                      tl.visReverse, tl.guide)
    ensures Built(scene.nodes.Keys, k, c) && Present(GroupNames(tl.groups), scene.nodes.Keys, k)
    ensures tl.visReverse in scene.nodes && tl.guide.curve in scene.nodes
    ensures !cfg.removeGuides ==> old(scene.nodes.Keys) <= scene.nodes.Keys
    ensures cfg.removeGuides ==> forall x :: x in cfg.guides + [cfg.poleVector] ==> x !in scene.nodes
  {
    var st;
    ghost var s1;
    st, n, links, s1 := StretchPhase(scene, k, cfg, c, lengthA, lengthB, fkOffsets, opm);
    ghost var s2 := scene.State();
    var g, gs, rev, gd;
    ghost var s3, s4;
    g, gs, rev, gd, s3, s4 := FileAndFinalize(scene, k, cfg, c, st);
    tl := Tail(st, g, gs, rev, gd);
    ts := TailStates(s1, s2, s3, s4, scene.State());
  }

  /** `organize_hierarchy`, `add_global_scale` and `finalize`. */
  method FileAndFinalize(scene: Scene, ghost k: set<string>, cfg: Config, c: Core, st: Option<IkStretch>)
    returns (g: Groups, gs: Option<string>, rev: string, gd: Guide, ghost s3: SceneState, ghost s4: SceneState)
    requires Extends(scene.State(), k)
    requires |c.ik| == 3 && |c.fk| == 3 && |c.bind| == 3 && |c.fkOffs| == 3
    requires Built(scene.nodes.Keys, k, c) && Present(NoXformList(c, st), scene.nodes.Keys, k)
    requires st.Some? ==> st.value.mdn in scene.nodes && st.value.cnd in scene.nodes
    requires forall i :: 0 <= i < |cfg.guides| ==> cfg.guides[i] in k
    requires cfg.poleVector in k
    modifies scene
    ensures scene.Valid()
    ensures FileTrace(old(scene.State()), s3, s4, scene.State(), cfg, c, st, g, gs, rev, gd)
    ensures Built(scene.nodes.Keys, k, c) && Present(GroupNames(g), scene.nodes.Keys, k)
    ensures rev in scene.nodes && gd.curve in scene.nodes
    ensures !cfg.removeGuides ==> old(scene.nodes.Keys) <= scene.nodes.Keys
    ensures cfg.removeGuides ==> forall x :: x in cfg.guides + [cfg.poleVector] ==> x !in scene.nodes
  {
    g, gs, s3 := FileAndScale(scene, k, Base(cfg), c, st);
    s4 := scene.State();
    var doomed := cfg.guides + [cfg.poleVector];
    GuidesBefore(cfg.guides, cfg.poleVector, k);
    ControlsPresent(scene.nodes.Keys, k, c);
    rev, gd := FinalizeRig(scene, k, cfg.side, Base(cfg), cfg.colorDict, ControlsOf(c), g, c.ik[1], doomed, cfg.removeGuides);
    BuiltKept(s4.nodes.Keys, scene.nodes.Keys, k, c);
    PresentKept(GroupNames(g), s4.nodes.Keys, scene.nodes.Keys, k);
  }

  lemma GuidesBefore(guides: seq<string>, pv: string, k: set<string>)
    requires (forall i :: 0 <= i < |guides| ==> guides[i] in k) && pv in k
    ensures forall i :: 0 <= i < |guides + [pv]| ==> (guides + [pv])[i] in k
  {
  }

  lemma PresentKept(names: seq<string>, a: set<string>, b: set<string>, k: set<string>)
    requires Present(names, a, k) && a - k <= b
    ensures Present(names, b, k)
  {
  }

  /** The stretch stages when `add_stretch` is set, nothing otherwise. */
  method StretchPhase(scene: Scene, ghost k: set<string>, cfg: Config, c: Core, lengthA: real, lengthB: real,
                      fkOffsets: seq<real>, opm: bool)
    returns (st: Option<IkStretch>, ghost n: IkStretchNodes, ghost links: seq<Option<FkStretchLink>>, ghost mid: SceneState)
    requires Ready(scene.State(), k, c)
    requires cfg.primaryAxis != [] && |fkOffsets| == 3
    modifies scene
    ensures Extends(scene.State(), k)
    ensures old(scene.nodes.Keys) <= scene.nodes.Keys
    ensures Built(scene.nodes.Keys, k, c) && Present(NoXformList(c, st), scene.nodes.Keys, k)
    ensures st.Some? ==> st.value.mdn in scene.nodes && st.value.cnd in scene.nodes
    ensures StretchTrace(old(scene.State()), mid, scene.State(), cfg, c, lengthA, lengthB, fkOffsets, opm, st, n, links)
  {
    st := None;
    n := IkStretchNodes(MeasureNodes("", "", "", "", ""), "", "", "");
    links := [None, None, None];
    mid := scene.State();
    if cfg.addStretch {
      var r;
      r, n, links, mid := MakeStretch(scene, k, Base(cfg), cfg.part, cfg.primaryAxis, c, lengthA, lengthB, fkOffsets, opm);
      st := Some(r);
    }
  }

  /** `organize_hierarchy` and then `add_global_scale`. */
  method FileAndScale(scene: Scene, ghost k: set<string>, base: string, c: Core, st: Option<IkStretch>)
    returns (g: Groups, gs: Option<string>, ghost mid: SceneState)
    requires Extends(scene.State(), k)
    requires |c.ik| == 3 && |c.fk| == 3 && |c.bind| == 3 && |c.fkOffs| == 3
    requires Built(scene.nodes.Keys, k, c) && Present(NoXformList(c, st), scene.nodes.Keys, k)
    requires st.Some? ==> st.value.mdn in scene.nodes && st.value.cnd in scene.nodes
    modifies scene
    ensures Extends(scene.State(), k)
    ensures old(scene.nodes.Keys) <= scene.nodes.Keys
    ensures Built(scene.nodes.Keys, k, c) && Present(GroupNames(g), scene.nodes.Keys, k)
    ensures g.fk in scene.nodes && g.ik in scene.nodes && g.noXform in scene.nodes && g.ik !in k && g.noXform !in k
    ensures mid == OrganizeStep(old(scene.State()), g, Parts(c, NoXformList(c, st)))
    ensures scene.State() == GlobalScaleStep(mid, g.all, st, gs)
  {
    g := FileRig(scene, k, base, c, st);
    mid := scene.State();
    gs := AddGlobalScale(scene, k, base, g.all, st);
    BuiltKept(mid.nodes.Keys, scene.nodes.Keys, k, c);
    PresentKept(GroupNames(g), mid.nodes.Keys, scene.nodes.Keys, k);
    GroupsPresent(g, scene.nodes.Keys, k);
  }

  lemma GroupsPresent(g: Groups, nodes: set<string>, k: set<string>)
    requires Present(GroupNames(g), nodes, k)
    ensures g.fk in nodes && g.ik in nodes && g.noXform in nodes && g.ik !in k && g.noXform !in k
  {
    assert g.fk == GroupNames(g)[0] && g.ik == GroupNames(g)[1] && g.noXform == GroupNames(g)[3];
  }

  /** The controls `finalize` styles, and the second IK joint its guide
      points at, are in the scene. */
  lemma ControlsPresent(nodes: set<string>, k: set<string>, c: Core)
    requires Built(nodes, k, c) && |c.ik| == 3
    ensures var f := ControlsOf(c);
      && (forall i :: 0 <= i < |f.fk| ==> f.fk[i] in nodes)
      && f.world in nodes && f.local in nodes && f.baseCtrl in nodes && f.pv in nodes && f.settings in nodes
      && c.ik[1] in nodes
  {
    var w := c.ikCtrls;
    assert w.world == IkNames(w)[0] && w.local == IkNames(w)[1] && w.pv == IkNames(w)[3] && w.baseCtrl == IkNames(w)[4];
  }

  /** `organize_hierarchy` over the parts of `c` and the no-transform list. */
  method FileRig(scene: Scene, ghost k: set<string>, base: string, c: Core, st: Option<IkStretch>) returns (g: Groups)
    requires Extends(scene.State(), k)
    requires |c.ik| == 3 && |c.fk| == 3 && |c.bind| == 3 && |c.fkOffs| == 3
    requires Built(scene.nodes.Keys, k, c) && Present(NoXformList(c, st), scene.nodes.Keys, k)
    requires st.Some? ==> st.value.mdn in scene.nodes && st.value.cnd in scene.nodes
    modifies scene
    ensures Extends(scene.State(), k)
    ensures old(scene.nodes.Keys) <= scene.nodes.Keys
    ensures Built(scene.nodes.Keys, k, c) && Present(GroupNames(g), scene.nodes.Keys, k)
    ensures st.Some? ==> st.value.mdn in scene.nodes && st.value.cnd in scene.nodes
    ensures Plug(g.all, "globalScale") !in scene.attrs
    ensures scene.State() == OrganizeStep(old(scene.State()), g, Parts(c, NoXformList(c, st)))
  {
    ghost var s0 := scene.State();
    var w := c.ikCtrls;
    assert w.world == IkNames(w)[0] && w.pv == IkNames(w)[3] && w.baseCtrl == IkNames(w)[4];
    g := OrganizeHierarchy(scene, k, base, Parts(c, NoXformList(c, st)));
    FreshPresent(GroupNames(g), s0.nodes.Keys, scene.nodes.Keys, k);
    assert g.all == GroupNames(g)[5];
    NewNodeBare(s0, g.all);
    BuiltKept(s0.nodes.Keys, scene.nodes.Keys, k, c);
  }
}
