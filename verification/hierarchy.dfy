/** Filing the rig into its groups (`organize_hierarchy`) and making it
    follow one global scale (`add_global_scale`). */
module Hierarchy {
  import opened Common
  import opened Names
  import opened SceneGraph
  import opened Stretch

  // ---------------------------------------------------------------------
  // organize_hierarchy
  // ---------------------------------------------------------------------

  /** The six empty groups, in the order they are made. */
  datatype Groups = Groups(fk: string, ik: string, skeleton: string, noXform: string, rig: string, all: string)

  function GroupNames(g: Groups): seq<string>
  {
    [g.fk, g.ik, g.skeleton, g.noXform, g.rig, g.all]
  }

  function GroupRequests(base: string): seq<string>
  {
    [FkCtrlGrpName(base), IkCtrlGrpName(base), SkeletonGrpName(base), NoXformGrpName(base), RigGrpName(base), AllGrpName(base)]
  }

  /** The nodes the earlier stages made that get filed into the groups:
      the world, pole vector and base IK controls, the top FK offset group,
      the roots of the three chains, the settings offset group and the
      nodes that must not inherit transforms (the IK handle and, with
      stretch, the two measuring locators). */
  datatype RigParts = RigParts(world: string, pv: string, baseCtrl: string, fkTop: string, bind0: string,
                               noXform: seq<string>, fk0: string, ik0: string, settingsOff: string)

  function PartNames(p: RigParts): seq<string>
  {
    [p.world, p.pv, p.baseCtrl, p.fkTop, p.bind0] + p.noXform + [p.fk0, p.ik0, p.settingsOff]
  }

  /** The parent map after the six `parent` commands, in their order. */
  function OrganizedParents(parent: map<string, string>, g: Groups, p: RigParts): map<string, string>
  {
    (parent + ParentsOf([p.world, p.pv, p.baseCtrl], g.ik))[p.fkTop := g.fk][p.bind0 := g.skeleton]
      + ParentsOf(p.noXform, g.noXform)
      + ParentsOf([g.fk, g.ik, g.noXform, p.fk0, p.ik0, p.settingsOff], g.rig)
      + ParentsOf([g.skeleton, g.rig], g.all)
  }

  /** The scene after `organize_hierarchy`: six new groups, the parts
      filed into them, and the no-transform group and the three chain
      roots hidden. */
  function OrganizeStep(s: SceneState, g: Groups, p: RigParts): SceneState
  {
    s.(nodes := s.nodes[g.fk := Group][g.ik := Group][g.skeleton := Group][g.noXform := Group][g.rig := Group][g.all := Group],
       parent := OrganizedParents(s.parent, g, p),
       hidden := s.hidden + {g.noXform, p.fk0, p.ik0, p.bind0})
  }

  /** Where `ParentsOf` sends a node. */
  lemma ParentsOfAt(m: map<string, string>, children: seq<string>, p: string, x: string)
    ensures x in children ==> x in m + ParentsOf(children, p) && (m + ParentsOf(children, p))[x] == p
    ensures x !in children ==> (x in m + ParentsOf(children, p) <==> x in m)
    ensures x !in children && x in m ==> (m + ParentsOf(children, p))[x] == m[x]
  {
  }

  /** The five groups the parts are filed into. */
  function Holders(g: Groups): set<string>
  {
    {g.fk, g.ik, g.skeleton, g.noXform, g.rig}
  }

  /** Every filed part that is not itself a group ends directly under one
      of the five inner groups. */
  lemma PartFiled(parent: map<string, string>, g: Groups, p: RigParts, x: string)
    requires x in PartNames(p) && x !in GroupNames(g)
    ensures var t := OrganizedParents(parent, g, p);
      x in t && t[x] in Holders(g)
  {
    var m1 := parent + ParentsOf([p.world, p.pv, p.baseCtrl], g.ik);
    var m2 := m1[p.fkTop := g.fk][p.bind0 := g.skeleton];
    var m3 := m2 + ParentsOf(p.noXform, g.noXform);
    var m4 := m3 + ParentsOf([g.fk, g.ik, g.noXform, p.fk0, p.ik0, p.settingsOff], g.rig);
    var rigKids := [g.fk, g.ik, g.noXform, p.fk0, p.ik0, p.settingsOff];
    var allKids := [g.skeleton, g.rig];
    assert x !in allKids;
    ParentsOfAt(m4, allKids, g.all, x);
    ParentsOfAt(m3, rigKids, g.rig, x);
    if x !in rigKids {
      ParentsOfAt(m2, p.noXform, g.noXform, x);
      if x !in p.noXform {
        assert x in [p.world, p.pv, p.baseCtrl, p.fkTop, p.bind0];
        ParentsOfAt(parent, [p.world, p.pv, p.baseCtrl], g.ik, x);
      }
    }
  }

  /** With the groups and the parts all distinct, each part lands in the
      group its own `parent` command names: the world, pole vector and base
      controls in the IK group, the top FK offset in the FK group, the bind
      root in the skeleton group, the no-transform nodes in the
      no-transform group, and the FK and IK roots and the settings offset
      in the rig group. */
  lemma PartsFiledInto(parent: map<string, string>, g: Groups, p: RigParts)
    requires Distinct(GroupNames(g) + PartNames(p))
    ensures var t := OrganizedParents(parent, g, p);
      && p.world in t && t[p.world] == g.ik && p.pv in t && t[p.pv] == g.ik && p.baseCtrl in t && t[p.baseCtrl] == g.ik
      && p.fkTop in t && t[p.fkTop] == g.fk && p.bind0 in t && t[p.bind0] == g.skeleton
      && (forall x :: x in p.noXform ==> x in t && t[x] == g.noXform)
      && p.fk0 in t && t[p.fk0] == g.rig && p.ik0 in t && t[p.ik0] == g.rig && p.settingsOff in t && t[p.settingsOff] == g.rig
  {
    PartsApart(g, p);
    var m1 := parent + ParentsOf([p.world, p.pv, p.baseCtrl], g.ik);
    var m2 := m1[p.fkTop := g.fk][p.bind0 := g.skeleton];
    var m3 := m2 + ParentsOf(p.noXform, g.noXform);
    forall x | x in [p.world, p.pv, p.baseCtrl]
      ensures x in m3 && m3[x] == g.ik
    {
      ParentsOfAt(parent, [p.world, p.pv, p.baseCtrl], g.ik, x);
      ParentsOfAt(m2, p.noXform, g.noXform, x);
    }
    ParentsOfAt(m2, p.noXform, g.noXform, p.fkTop);
    ParentsOfAt(m2, p.noXform, g.noXform, p.bind0);
    FiledKept(m3, g, p, p.world);
    FiledKept(m3, g, p, p.pv);
    FiledKept(m3, g, p, p.baseCtrl);
    FiledKept(m3, g, p, p.fkTop);
    FiledKept(m3, g, p, p.bind0);
    forall x | x in p.noXform
      ensures x in OrganizedParents(parent, g, p) && OrganizedParents(parent, g, p)[x] == g.noXform
    {
      ParentsOfAt(m2, p.noXform, g.noXform, x);
      FiledKept(m3, g, p, x);
    }
    RigFiled(m3, g, p);
  }

  /** A node the last two `parent` commands do not name keeps the parent
      the first four gave it. */
  lemma FiledKept(m3: map<string, string>, g: Groups, p: RigParts, x: string)
    requires x in m3 && x !in [g.fk, g.ik, g.noXform, p.fk0, p.ik0, p.settingsOff] && x !in [g.skeleton, g.rig]
    ensures var t := m3 + ParentsOf([g.fk, g.ik, g.noXform, p.fk0, p.ik0, p.settingsOff], g.rig) + ParentsOf([g.skeleton, g.rig], g.all);
      x in t && t[x] == m3[x]
  {
    var rigKids := [g.fk, g.ik, g.noXform, p.fk0, p.ik0, p.settingsOff];
    ParentsOfAt(m3, rigKids, g.rig, x);
    ParentsOfAt(m3 + ParentsOf(rigKids, g.rig), [g.skeleton, g.rig], g.all, x);
  }

  /** The chain roots and the settings offset end in the rig group. */
  lemma RigFiled(m3: map<string, string>, g: Groups, p: RigParts)
    requires forall x :: x in [p.fk0, p.ik0, p.settingsOff] ==> x !in [g.skeleton, g.rig]
    ensures var t := m3 + ParentsOf([g.fk, g.ik, g.noXform, p.fk0, p.ik0, p.settingsOff], g.rig) + ParentsOf([g.skeleton, g.rig], g.all);
      && p.fk0 in t && t[p.fk0] == g.rig && p.ik0 in t && t[p.ik0] == g.rig && p.settingsOff in t && t[p.settingsOff] == g.rig
  {
    var rigKids := [g.fk, g.ik, g.noXform, p.fk0, p.ik0, p.settingsOff];
    var m4 := m3 + ParentsOf(rigKids, g.rig);
    ParentsOfAt(m3, rigKids, g.rig, p.fk0);
    ParentsOfAt(m3, rigKids, g.rig, p.ik0);
    ParentsOfAt(m3, rigKids, g.rig, p.settingsOff);
    ParentsOfAt(m4, [g.skeleton, g.rig], g.all, p.fk0);
    ParentsOfAt(m4, [g.skeleton, g.rig], g.all, p.ik0);
    ParentsOfAt(m4, [g.skeleton, g.rig], g.all, p.settingsOff);
  }

  /** What `Distinct(GroupNames(g) + PartNames(p))` says about the lists
      of the six `parent` commands: a node named by one command is not
      named by a later one. */
  lemma PartsApart(g: Groups, p: RigParts)
    requires Distinct(GroupNames(g) + PartNames(p))
    ensures forall x :: x in [p.world, p.pv, p.baseCtrl, p.fkTop, p.bind0] ==>
      x !in p.noXform && x !in [g.fk, g.ik, g.noXform, p.fk0, p.ik0, p.settingsOff] && x !in [g.skeleton, g.rig]
    ensures p.world != p.fkTop && p.world != p.bind0 && p.pv != p.fkTop && p.pv != p.bind0
    ensures p.baseCtrl != p.fkTop && p.baseCtrl != p.bind0 && p.fkTop != p.bind0
    ensures forall x :: x in p.noXform ==> x !in [g.fk, g.ik, g.noXform, p.fk0, p.ik0, p.settingsOff] && x !in [g.skeleton, g.rig]
    ensures forall x :: x in [p.fk0, p.ik0, p.settingsOff] ==> x !in [g.skeleton, g.rig]
  {
    var q := GroupNames(g) + PartNames(p);
    var n := |p.noXform|;
    assert q[0] == g.fk && q[1] == g.ik && q[2] == g.skeleton && q[3] == g.noXform && q[4] == g.rig && q[5] == g.all;
    assert q[6] == p.world && q[7] == p.pv && q[8] == p.baseCtrl && q[9] == p.fkTop && q[10] == p.bind0;
    assert q[11 + n] == p.fk0 && q[12 + n] == p.ik0 && q[13 + n] == p.settingsOff;
    forall k | 0 <= k < n
      ensures q[11 + k] == p.noXform[k]
    {
    }
  }

  lemma GroupsDistinct(g: Groups)
    requires Distinct(GroupNames(g))
    ensures g.fk != g.ik && g.fk != g.skeleton && g.fk != g.noXform && g.fk != g.rig && g.fk != g.all
    ensures g.ik != g.skeleton && g.ik != g.noXform && g.ik != g.rig && g.ik != g.all
    ensures g.skeleton != g.noXform && g.skeleton != g.rig && g.skeleton != g.all
    ensures g.noXform != g.rig && g.noXform != g.all && g.rig != g.all
  {
    var n := GroupNames(g);
    assert n[0] == g.fk && n[1] == g.ik && n[2] == g.skeleton && n[3] == g.noXform && n[4] == g.rig && n[5] == g.all;
  }

  /** Where the six groups end up. */
  lemma GroupsPlaced(parent: map<string, string>, g: Groups, p: RigParts)
    requires Distinct(GroupNames(g)) && g.all !in PartNames(p)
    requires g.all !in parent
    ensures var t := OrganizedParents(parent, g, p);
      && g.all !in t
      && t[g.skeleton] == g.all && t[g.rig] == g.all
      && t[g.fk] == g.rig && t[g.ik] == g.rig && t[g.noXform] == g.rig
  {
    var m1 := parent + ParentsOf([p.world, p.pv, p.baseCtrl], g.ik);
    var m2 := m1[p.fkTop := g.fk][p.bind0 := g.skeleton];
    var m3 := m2 + ParentsOf(p.noXform, g.noXform);
    var rigKids := [g.fk, g.ik, g.noXform, p.fk0, p.ik0, p.settingsOff];
    var m4 := m3 + ParentsOf(rigKids, g.rig);
    var allKids := [g.skeleton, g.rig];
    GroupsDistinct(g);
    ParentsOfAt(m4, allKids, g.all, g.all);
    ParentsOfAt(m3, rigKids, g.rig, g.all);
    ParentsOfAt(m2, p.noXform, g.noXform, g.all);
    ParentsOfAt(parent, [p.world, p.pv, p.baseCtrl], g.ik, g.all);
    ParentsOfAt(m4, allKids, g.all, g.skeleton);
    ParentsOfAt(m4, allKids, g.all, g.rig);
    ParentsOfAt(m4, allKids, g.all, g.fk);
    ParentsOfAt(m4, allKids, g.all, g.ik);
    ParentsOfAt(m4, allKids, g.all, g.noXform);
    ParentsOfAt(m3, rigKids, g.rig, g.fk);
    ParentsOfAt(m3, rigKids, g.rig, g.ik);
    ParentsOfAt(m3, rigKids, g.rig, g.noXform);
  }

  /** The shape of the organized rig: the top group `{SIDE}_{PART}` is a
      root; the skeleton and rig groups hang under it, the FK, IK and
      no-transform groups under the rig group; every filed part hangs
      directly under one of those five groups and so lies at most three
      levels below the top group. */
  lemma OrganizedUnderAll(s: SceneState, g: Groups, p: RigParts)
    requires Distinct(GroupNames(g)) && forall x :: x in PartNames(p) ==> x !in GroupNames(g)
    requires g.all !in s.parent
    ensures var t := OrganizeStep(s, g, p).parent;
      && g.all !in t
      && t[g.skeleton] == g.all && t[g.rig] == g.all
      && t[g.fk] == g.rig && t[g.ik] == g.rig && t[g.noXform] == g.rig
      && (forall x :: x in PartNames(p) ==> x in t && t[x] in Holders(g))
      && (forall x :: x in PartNames(p) ==> AncestorIn(t, x, {g.all}, 3))
  {
    var t := OrganizedParents(s.parent, g, p);
    assert g.all in GroupNames(g);
    GroupsPlaced(s.parent, g, p);
    forall x | x in PartNames(p)
      ensures x in t && t[x] in Holders(g)
      ensures AncestorIn(t, x, {g.all}, 3)
    {
      PartFiled(s.parent, g, p, x);
      assert AncestorIn(t, t[x], {g.all}, 2);
    }
  }

  /** `organize_hierarchy` hides the no-transform group and the roots of
      the FK, IK and bind chains, and nothing else. */
  lemma OrganizeHides(s: SceneState, g: Groups, p: RigParts)
    ensures OrganizeStep(s, g, p).hidden - s.hidden == {g.noXform, p.fk0, p.ik0, p.bind0} - s.hidden
  {
  }

  lemma GroupsNamed(t0: set<string>, t1: set<string>, t2: set<string>, t3: set<string>, t4: set<string>,
                    t5: set<string>, t6: set<string>, g: Groups, base: string)
    requires t1 == t0 + {g.fk} && t2 == t1 + {g.ik} && t3 == t2 + {g.skeleton}
    requires t4 == t3 + {g.noXform} && t5 == t4 + {g.rig} && t6 == t5 + {g.all}
    requires g.fk !in t0 && g.ik !in t1 && g.skeleton !in t2 && g.noXform !in t3 && g.rig !in t4 && g.all !in t5
    requires FkCtrlGrpName(base) !in t0 ==> g.fk == FkCtrlGrpName(base)
    requires IkCtrlGrpName(base) !in t1 ==> g.ik == IkCtrlGrpName(base)
    requires SkeletonGrpName(base) !in t2 ==> g.skeleton == SkeletonGrpName(base)
    requires NoXformGrpName(base) !in t3 ==> g.noXform == NoXformGrpName(base)
    requires RigGrpName(base) !in t4 ==> g.rig == RigGrpName(base)
    requires AllGrpName(base) !in t5 ==> g.all == AllGrpName(base)
    ensures t6 == t0 + Elems(GroupNames(g))
    ensures FreshNames(GroupNames(g), t0) && NamedAsRequested(t0, GroupRequests(base), GroupNames(g))
  {
    StepwiseNames([t0, t1, t2, t3, t4, t5, t6], GroupNames(g), GroupRequests(base));
  }

  /** The six groups, named after the limb. */
  method MakeGroups(scene: Scene, ghost k: set<string>, base: string) returns (g: Groups)
    requires Extends(scene.State(), k)
    modifies scene
    ensures Extends(scene.State(), k)
    ensures scene.nodes.Keys == old(scene.nodes.Keys) + Elems(GroupNames(g))
    ensures FreshNames(GroupNames(g), old(scene.nodes.Keys))
    ensures NamedAsRequested(old(scene.nodes.Keys), GroupRequests(base), GroupNames(g))
    ensures scene.State() == old(scene.State()).(
      nodes := old(scene.nodes)[g.fk := Group][g.ik := Group][g.skeleton := Group][g.noXform := Group][g.rig := Group][g.all := Group])
  {
    ghost var s0 := scene.State();
    ghost var t0 := scene.nodes.Keys;
    var fk := scene.CreateNode(FkCtrlGrpName(base), Group);
    ghost var t1 := scene.nodes.Keys;
    var ik := scene.CreateNode(IkCtrlGrpName(base), Group);
    ghost var t2 := scene.nodes.Keys;
    var sk := scene.CreateNode(SkeletonGrpName(base), Group);
    ghost var t3 := scene.nodes.Keys;
    var nx := scene.CreateNode(NoXformGrpName(base), Group);
    ghost var t4 := scene.nodes.Keys;
    var rg := scene.CreateNode(RigGrpName(base), Group);
    ghost var t5 := scene.nodes.Keys;
    var al := scene.CreateNode(AllGrpName(base), Group);
    g := Groups(fk, ik, sk, nx, rg, al);
    GroupsNamed(t0, t1, t2, t3, t4, t5, scene.nodes.Keys, g, base);
    ExtendsKept(s0, scene.State(), k);
  }

  /** Every name in `names` is a node of the scene that the build made. */
  ghost predicate Present(names: seq<string>, nodes: set<string>, k: set<string>)
  {
    forall i :: 0 <= i < |names| ==> names[i] in nodes && names[i] !in k
  }

  /** Every part is a node of the scene that the build made. */
  ghost predicate Fileable(p: RigParts, nodes: set<string>, k: set<string>)
  {
    && p.world in nodes && p.pv in nodes && p.baseCtrl in nodes && p.fkTop in nodes && p.bind0 in nodes
    && p.world !in k && p.pv !in k && p.baseCtrl !in k && p.fkTop !in k && p.bind0 !in k
    && Present(p.noXform, nodes, k)
    && p.fk0 in nodes && p.ik0 in nodes && p.settingsOff in nodes
    && p.fk0 !in k && p.ik0 !in k && p.settingsOff !in k
  }

  lemma RootedInParents(parent: map<string, string>, k: set<string>, children: seq<string>, p: string)
    requires RootedIn(parent, k)
    requires p !in k && forall i :: 0 <= i < |children| ==> children[i] !in k
    ensures RootedIn(parent + ParentsOf(children, p), k)
  {
  }

  /** The parts filed into the groups, and the four nodes hidden. */
  method FileParts(scene: Scene, ghost k: set<string>, g: Groups, p: RigParts)
    requires Extends(scene.State(), k)
    requires Present(GroupNames(g), scene.nodes.Keys, k) && Fileable(p, scene.nodes.Keys, k)
    modifies scene
    ensures Extends(scene.State(), k)
    ensures scene.State() == old(scene.State()).(parent := OrganizedParents(old(scene.parent), g, p),
                                                 hidden := old(scene.hidden) + {g.noXform, p.fk0, p.ik0, p.bind0})
  {
    assert GroupNames(g)[0] == g.fk && GroupNames(g)[1] == g.ik && GroupNames(g)[2] == g.skeleton;
    assert GroupNames(g)[3] == g.noXform && GroupNames(g)[4] == g.rig && GroupNames(g)[5] == g.all;
    RootedInParents(scene.parent, k, [p.world, p.pv, p.baseCtrl], g.ik);
    scene.ParentAll([p.world, p.pv, p.baseCtrl], g.ik);
    RootedInUpdate(scene.parent, k, p.fkTop, g.fk);
    scene.Parent(p.fkTop, g.fk);
    RootedInUpdate(scene.parent, k, p.bind0, g.skeleton);
    scene.Parent(p.bind0, g.skeleton);
    RootedInParents(scene.parent, k, p.noXform, g.noXform);
    scene.ParentAll(p.noXform, g.noXform);
    RootedInParents(scene.parent, k, [g.fk, g.ik, g.noXform, p.fk0, p.ik0, p.settingsOff], g.rig);
    scene.ParentAll([g.fk, g.ik, g.noXform, p.fk0, p.ik0, p.settingsOff], g.rig);
    RootedInParents(scene.parent, k, [g.skeleton, g.rig], g.all);
    scene.ParentAll([g.skeleton, g.rig], g.all);
    scene.Hide(g.noXform);
    scene.Hide(p.fk0);
    scene.Hide(p.ik0);
    scene.Hide(p.bind0);
    SetAdd4(old(scene.hidden), g.noXform, p.fk0, p.ik0, p.bind0);
  }

  /** `organize_hierarchy`.  Moving the pivots of the groups onto the
      chain (`transfer_pivots`) is geometry and is not part of this model. */
  method OrganizeHierarchy(scene: Scene, ghost k: set<string>, base: string, p: RigParts) returns (g: Groups)
    requires Extends(scene.State(), k)
    requires Fileable(p, scene.nodes.Keys, k)
    modifies scene
    ensures Extends(scene.State(), k)
    ensures scene.nodes.Keys == old(scene.nodes.Keys) + Elems(GroupNames(g))
    ensures FreshNames(GroupNames(g), old(scene.nodes.Keys))
    ensures NamedAsRequested(old(scene.nodes.Keys), GroupRequests(base), GroupNames(g))
    ensures scene.State() == OrganizeStep(old(scene.State()), g, p)
  {
    g := MakeGroups(scene, k, base);
    assert forall i :: 0 <= i < |GroupNames(g)| ==> GroupNames(g)[i] in Elems(GroupNames(g));
    assert Present(GroupNames(g), scene.nodes.Keys, k);
    FileParts(scene, k, g, p);
  }

  // ---------------------------------------------------------------------
  // add_global_scale
  // ---------------------------------------------------------------------

  /** `globalScale` drives the top group's scale on all three axes. */
  function ScaleEdges(all: string): set<Connection>
  {
    set a | a in "XYZ" :: Connection(Plug(all, "globalScale"), AxisPlug(all, "scale", a))
  }

  /** With stretch, the rest length times `globalScale` feeds both the
      divisor of the stretch ratio and the condition's threshold. */
  function GlobalScaleEdges(all: string, gs: string, st: IkStretch): set<Connection>
  {
    {Connection(Plug(all, "globalScale"), Plug(gs, "input2")),
     Connection(Plug(gs, "output"), Plug(st.mdn, "input2X")),
     Connection(Plug(gs, "output"), Plug(st.cnd, "secondTerm"))}
  }

  /** The scene after `add_global_scale`; `gs` is the multiplier made when
      the limb has IK stretch (`st`). */
  function GlobalScaleStep(s: SceneState, all: string, st: Option<IkStretch>, gs: Option<string>): SceneState
  {
    if st.Some? && gs.Some? then
      s.(nodes := s.nodes[gs.value := MultDoubleLinear],
         attrs := s.attrs[Plug(all, "globalScale") := PositiveRange],
         values := s.values[Plug(gs.value, "input1") := st.value.lengthTotal],
         connections := s.connections + ScaleEdges(all) + GlobalScaleEdges(all, gs.value, st.value))
    else
      s.(attrs := s.attrs[Plug(all, "globalScale") := PositiveRange],
         connections := s.connections + ScaleEdges(all))
  }

  /** The top group's scale follows `globalScale` on X, Y and Z; with
      stretch, a multiplier holding the rest length scales it by
      `globalScale` and feeds the result both to the stretch ratio's
      divisor and to the condition's threshold, so that the measured
      distance and the rest length scale together (see
      `Network.GlobalScaleInvariant`); without stretch nothing else is
      made. */
  lemma GlobalScaleWired(s: SceneState, all: string, st: Option<IkStretch>, gs: Option<string>)
    requires gs.Some? <==> st.Some?
    ensures var t := GlobalScaleStep(s, all, st, gs);
      && Plug(all, "globalScale") in t.attrs && t.attrs[Plug(all, "globalScale")] == Range(Some(0.001), None, 1.0)
      && (forall a :: a in "XYZ" ==> Connection(Plug(all, "globalScale"), AxisPlug(all, "scale", a)) in t.connections)
      && (st.None? ==> t.nodes == s.nodes && t.values == s.values)
      && (st.Some? ==>
            && t.nodes == s.nodes[gs.value := MultDoubleLinear]
            && t.values[Plug(gs.value, "input1")] == st.value.lengthTotal
            && Connection(Plug(all, "globalScale"), Plug(gs.value, "input2")) in t.connections
            && Connection(Plug(gs.value, "output"), Plug(st.value.mdn, "input2X")) in t.connections
            && Connection(Plug(gs.value, "output"), Plug(st.value.cnd, "secondTerm")) in t.connections)
  {
  }

  /** `add_global_scale`. */
  method AddGlobalScale(scene: Scene, ghost k: set<string>, base: string, all: string, st: Option<IkStretch>)
    returns (gs: Option<string>)
    requires Extends(scene.State(), k)
    requires all in scene.nodes && Plug(all, "globalScale") !in scene.attrs
    requires st.Some? ==> st.value.mdn in scene.nodes && st.value.cnd in scene.nodes
    modifies scene
    ensures Extends(scene.State(), k)
    ensures gs.Some? <==> st.Some?
    ensures gs.Some? ==> gs.value !in old(scene.nodes)
    ensures gs.Some? && GlobalScaleMdlName(base) !in old(scene.nodes) ==> gs.value == GlobalScaleMdlName(base)
    ensures scene.State() == GlobalScaleStep(old(scene.State()), all, st, gs)
  {
    ghost var s0 := scene.State();
    scene.AddAttr(Plug(all, "globalScale"), PositiveRange);
    scene.ConnectAttr(Plug(all, "globalScale"), AxisPlug(all, "scale", 'X'));
    scene.ConnectAttr(Plug(all, "globalScale"), AxisPlug(all, "scale", 'Y'));
    scene.ConnectAttr(Plug(all, "globalScale"), AxisPlug(all, "scale", 'Z'));
    SetAdd3(s0.connections, Connection(Plug(all, "globalScale"), AxisPlug(all, "scale", 'X')),
            Connection(Plug(all, "globalScale"), AxisPlug(all, "scale", 'Y')),
            Connection(Plug(all, "globalScale"), AxisPlug(all, "scale", 'Z')));
    assert ScaleEdges(all) == {Connection(Plug(all, "globalScale"), AxisPlug(all, "scale", 'X')),
                               Connection(Plug(all, "globalScale"), AxisPlug(all, "scale", 'Y')),
                               Connection(Plug(all, "globalScale"), AxisPlug(all, "scale", 'Z'))};
    if st.Some? {
      var m := scene.CreateNode(GlobalScaleMdlName(base), MultDoubleLinear);
      scene.SetAttr(Plug(m, "input1"), st.value.lengthTotal);
      scene.ConnectAttr(Plug(all, "globalScale"), Plug(m, "input2"));
      scene.ConnectAttr(Plug(m, "output"), Plug(st.value.mdn, "input2X"));
      scene.ConnectAttr(Plug(m, "output"), Plug(st.value.cnd, "secondTerm"));
      gs := Some(m);
      SetAdd3(s0.connections + ScaleEdges(all), Connection(Plug(all, "globalScale"), Plug(m, "input2")),
              Connection(Plug(m, "output"), Plug(st.value.mdn, "input2X")),
              Connection(Plug(m, "output"), Plug(st.value.cnd, "secondTerm")));
    } else {
      gs := None;
    }
    ExtendsKept(s0, scene.State(), k);
  }
}
