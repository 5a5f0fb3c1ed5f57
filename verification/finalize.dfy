/** The last stage of the build (`finalize`): control colours, locked
    channels, the IK/FK visibility switch, the pole vector guide and the
    removal of the guides. */
module Finalize {
  import opened Common
  import opened Names
  import opened SceneGraph
  import opened Hierarchy

  // ---------------------------------------------------------------------
  // control colours
  // ---------------------------------------------------------------------

  /** `color_dict`: a `controlType` tag to the colour of its controls. */
  type ColorDict = map<string, RGB>

  /** The colours used when no dictionary is given: yellow primary, cyan
      pole vector, blue FK and light blue secondary controls. */
  function DefaultColors(base: string): ColorDict
  {
    map[RoleTag(base, "primary") := RGB(1.0, 1.0, 0.0),
        RoleTag(base, "pv") := RGB(0.0, 1.0, 1.0),
        RoleTag(base, "fk") := RGB(0.0, 0.0, 1.0),
        RoleTag(base, "secondary") := RGB(0.0, 0.2, 1.0)]
  }

  /** An empty dictionary, like the default `False`, selects the default
      colours. */
  function ColorsInUse(given: ColorDict, base: string): (d: ColorDict)
    ensures given != map[] ==> d == given
    ensures given == map[] ==> d.Keys == {RoleTag(base, "primary"), RoleTag(base, "pv"), RoleTag(base, "fk"), RoleTag(base, "secondary")}
  {
    if given == map[] then DefaultColors(base) else given
  }

  /** Python's `sub in s` on strings. */
  predicate Contains(s: string, sub: string)
    decreases |s|
  {
    sub <= s || (s != [] && Contains(s[1..], sub))
  }

  /** Whether `sub` occurs in `s` starting at `i`. */
  lemma {:induction false} ContainsAt(s: string, sub: string, i: nat)
    requires i + |sub| <= |s| && s[i..i + |sub|] == sub
    ensures Contains(s, sub)
    decreases i
  {
    if i == 0 {
      assert sub <= s;
    } else {
      assert s[1..][i - 1..i - 1 + |sub|] == s[i..i + |sub|];
      ContainsAt(s[1..], sub, i - 1);
    }
  }

  /** The controls the colour loop visits: `ls {side}*.controlType` lists
      the tagged nodes whose names start with the side. */
  function Listed(tags: map<string, string>, side: string): set<string>
  {
    set n | n in tags && side <= n
  }

  /** The listed controls whose tag mentions the limb's base name. */
  function ColorTargets(tags: map<string, string>, side: string, base: string): set<string>
  {
    set n | n in tags && side <= n && Contains(tags[n], base)
  }

  /** The colour loop as the source writes it: every listed control whose
      tag contains the base name is looked up in the dictionary, and a tag
      that is not a key raises `KeyError`. */
  function ColorsAsWritten(colors: map<string, RGB>, tags: map<string, string>, side: string, base: string, dict: ColorDict)
    : Result<map<string, RGB>, string>
  {
    if exists n :: n in ColorTargets(tags, side, base) && tags[n] !in dict then Failure("KeyError")
    else Success(colors + map n | n in ColorTargets(tags, side, base) :: dict[tags[n]])
  }

  /** The colour loop corrected: only the controls whose tag is one of the
      dictionary's keys are coloured, each with its tag's colour. */
  function ColorsApplied(colors: map<string, RGB>, tags: map<string, string>, side: string, base: string, dict: ColorDict)
    : map<string, RGB>
  {
    colors + map n | n in ColorTargets(tags, side, base) && tags[n] in dict :: dict[tags[n]]
  }

  /** Whenever the source's loop finishes, the corrected loop colours the
      same controls with the same colours; it differs only where the
      source raises. */
  lemma AsWrittenAgrees(colors: map<string, RGB>, tags: map<string, string>, side: string, base: string, dict: ColorDict)
    ensures ColorsAsWritten(colors, tags, side, base, dict).Success? ==>
              ColorsAsWritten(colors, tags, side, base, dict).value == ColorsApplied(colors, tags, side, base, dict)
    ensures ColorsAsWritten(colors, tags, side, base, dict).Failure? <==>
              exists n :: n in ColorTargets(tags, side, base) && tags[n] !in dict
  {
    if ColorsAsWritten(colors, tags, side, base, dict).Success? {
      var a := map n | n in ColorTargets(tags, side, base) :: dict[tags[n]];
      var b := map n | n in ColorTargets(tags, side, base) && tags[n] in dict :: dict[tags[n]];
      assert a == b;
    }
  }

  /** A second left arm built after one named `L_arm2`: the earlier arm's
      world control is tagged `L_arm2_primary`, which contains `L_arm`, so
      the source's loop looks that tag up in the default colours of
      `L_arm` and raises `KeyError`; the corrected loop leaves the other
      limb's control alone. */
  lemma SecondLimbRaises()
    ensures var tags := map["L_arm2_IK_CTRL" := "L_arm2_primary"];
      && ColorsAsWritten(map[], tags, "L", "L_arm", DefaultColors("L_arm")).Failure?
      && ColorsApplied(map[], tags, "L", "L_arm", DefaultColors("L_arm")) == map[]
  {
    var tags := map["L_arm2_IK_CTRL" := "L_arm2_primary"];
    assert "L" <= "L_arm2_IK_CTRL";
    assert "L_arm" <= "L_arm2_primary";
    assert "L_arm2_IK_CTRL" in ColorTargets(tags, "L", "L_arm");
    assert |"L_arm2_primary"| == 14;
    assert "L_arm2_primary" !in DefaultColors("L_arm");
  }

  /** The base name occurs in every role tag of the limb. */
  lemma RoleTagContainsBase(base: string, role: string)
    ensures Contains(RoleTag(base, role), base)
  {
    assert base <= RoleTag(base, role);
  }

  /** With the default colours every control of this limb (named after its
      side and tagged with one of the four roles) gets its role's colour. */
  lemma DefaultColorsApplied(colors: map<string, RGB>, tags: map<string, string>, side: string, base: string, n: string)
    requires n in tags && side <= n
    ensures var d := DefaultColors(base);
      var c := ColorsApplied(colors, tags, side, base, d);
      && (tags[n] == RoleTag(base, "primary") ==> n in c && c[n] == RGB(1.0, 1.0, 0.0))
      && (tags[n] == RoleTag(base, "pv") ==> n in c && c[n] == RGB(0.0, 1.0, 1.0))
      && (tags[n] == RoleTag(base, "fk") ==> n in c && c[n] == RGB(0.0, 0.0, 1.0))
      && (tags[n] == RoleTag(base, "secondary") ==> n in c && c[n] == RGB(0.0, 0.2, 1.0))
  {
    assert RoleTag(base, "pv")[|base| + 1] == 'p' && RoleTag(base, "fk")[|base| + 1] == 'f';
    RoleTagContainsBase(base, "primary");
    RoleTagContainsBase(base, "pv");
    RoleTagContainsBase(base, "fk");
    RoleTagContainsBase(base, "secondary");
  }

  /** A control is recoloured exactly when it is listed, its tag contains
      the base name and the tag is a key; every other control keeps its
      colour. */
  lemma ColorsAppliedExact(colors: map<string, RGB>, tags: map<string, string>, side: string, base: string, dict: ColorDict, n: string)
    ensures var c := ColorsApplied(colors, tags, side, base, dict);
      && (n in tags && side <= n && Contains(tags[n], base) && tags[n] in dict ==> n in c && c[n] == dict[tags[n]])
      && (!(n in tags && side <= n && Contains(tags[n], base) && tags[n] in dict) ==>
            (n in c <==> n in colors) && (n in colors ==> c[n] == colors[n]))
  {
  }

  /** The colours after the loop has visited the controls in `done`. */
  function ColoredSoFar(colors: map<string, RGB>, tags: map<string, string>, done: set<string>, base: string, dict: ColorDict)
    : map<string, RGB>
    requires done <= tags.Keys
  {
    colors + map n | n in done && Contains(tags[n], base) && tags[n] in dict :: dict[tags[n]]
  }

  lemma ColoredSoFarEmpty(colors: map<string, RGB>, tags: map<string, string>, base: string, dict: ColorDict)
    ensures ColoredSoFar(colors, tags, {}, base, dict) == colors
  {
  }

  lemma ColoredSoFarAdd(colors: map<string, RGB>, tags: map<string, string>, done: set<string>, base: string, dict: ColorDict, n: string)
    requires done <= tags.Keys && n in tags && n !in done
    ensures ColoredSoFar(colors, tags, done + {n}, base, dict)
         == if Contains(tags[n], base) && tags[n] in dict then ColoredSoFar(colors, tags, done, base, dict)[n := dict[tags[n]]]
            else ColoredSoFar(colors, tags, done, base, dict)
  {
  }

  lemma ColoredSoFarAll(colors: map<string, RGB>, tags: map<string, string>, side: string, base: string, dict: ColorDict)
    ensures ColoredSoFar(colors, tags, Listed(tags, side), base, dict) == ColorsApplied(colors, tags, side, base, dict)
  {
  }

  /** The colour loop of `finalize`, corrected to skip tags that are not
      keys of the dictionary.  The order `ls` lists the controls in does
      not matter: each control is coloured at most once. */
  method ColorControls(scene: Scene, side: string, base: string, dict: ColorDict)
    requires scene.Valid()
    modifies scene
    ensures scene.Valid()
    ensures scene.State() == old(scene.State()).(colors := ColorsApplied(old(scene.colors), old(scene.tags), side, base, dict))
  {
    var todo := set n | n in scene.tags && side <= n;
    ghost var done: set<string> := {};
    ColoredSoFarEmpty(scene.colors, scene.tags, base, dict);
    while todo != {}
      invariant scene.Valid()
      invariant todo !! done && todo + done == Listed(old(scene.tags), side)
      invariant scene.State() == old(scene.State()).(colors := scene.colors)
      invariant scene.colors == ColoredSoFar(old(scene.colors), old(scene.tags), done, base, dict)
      decreases todo
    {
      var n :| n in todo;
      ColoredSoFarAdd(old(scene.colors), old(scene.tags), done, base, dict, n);
      if Contains(scene.tags[n], base) && scene.tags[n] in dict {
        scene.SetColor(n, dict[scene.tags[n]]);
      }
      todo := todo - {n};
      done := done + {n};
    }
    ColoredSoFarAll(old(scene.colors), old(scene.tags), side, base, dict);
  }

  // ---------------------------------------------------------------------
  // lock_and_hide
  // ---------------------------------------------------------------------

  /** The channels locked when no list is given. */
  const DefaultLockList: seq<string> := ["translate", "rotate", "scale", "visibility"]

  /** `if not attribute_list`: an empty list, like `None`, selects the
      default. */
  function LockList(attrs: seq<string>): (r: seq<string>)
    ensures r != []
    ensures attrs != [] ==> r == attrs
  {
    if attrs == [] then DefaultLockList else attrs
  }

  predicate IsTrs(attr: string)
  {
    attr == "translate" || attr == "rotate" || attr == "scale"
  }

  /** The plugs one attribute name stands for: the X, Y and Z channels of
      translate, rotate and scale, the attribute itself otherwise. */
  function ChannelPlugs(n: string, attr: string): set<Plug>
  {
    if IsTrs(attr) then XyzPlugs(n, attr) else {Plug(n, attr)}
  }

  /** The plugs locked on one node. */
  function NodeLocks(n: string, attrs: seq<string>): set<Plug>
    decreases |attrs|
  {
    if attrs == [] then {} else NodeLocks(n, attrs[..|attrs| - 1]) + ChannelPlugs(n, attrs[|attrs| - 1])
  }

  /** The plugs locked on all the nodes. */
  function Locks(nodes: seq<string>, attrs: seq<string>): set<Plug>
    decreases |nodes|
  {
    if nodes == [] then {} else Locks(nodes[..|nodes| - 1], attrs) + NodeLocks(nodes[|nodes| - 1], attrs)
  }

  lemma {:induction false} NodeLocksExact(n: string, attrs: seq<string>, p: Plug)
    ensures p in NodeLocks(n, attrs) <==> exists j :: 0 <= j < |attrs| && p in ChannelPlugs(n, attrs[j])
    decreases |attrs|
  {
    if attrs != [] {
      var m := |attrs| - 1;
      NodeLocksExact(n, attrs[..m], p);
      if p in ChannelPlugs(n, attrs[m]) {
        assert 0 <= m < |attrs| && p in ChannelPlugs(n, attrs[m]);
      }
      if exists j :: 0 <= j < |attrs| && p in ChannelPlugs(n, attrs[j]) {
        var j :| 0 <= j < |attrs| && p in ChannelPlugs(n, attrs[j]);
        if j < m {
          assert attrs[..m][j] == attrs[j];
        }
      }
      assert forall j :: 0 <= j < m ==> attrs[..m][j] == attrs[j];
    }
  }

  /** A plug is locked exactly when it is one of the channels of a listed
      attribute on a listed node. */
  lemma {:induction false} LocksExact(nodes: seq<string>, attrs: seq<string>, p: Plug)
    ensures p in Locks(nodes, attrs) <==>
              exists i, j :: 0 <= i < |nodes| && 0 <= j < |attrs| && p in ChannelPlugs(nodes[i], attrs[j])
    decreases |nodes|
  {
    if nodes != [] {
      var m := |nodes| - 1;
      LocksExact(nodes[..m], attrs, p);
      NodeLocksExact(nodes[m], attrs, p);
      if exists i, j :: 0 <= i < |nodes| && 0 <= j < |attrs| && p in ChannelPlugs(nodes[i], attrs[j]) {
        var i, j :| 0 <= i < |nodes| && 0 <= j < |attrs| && p in ChannelPlugs(nodes[i], attrs[j]);
        if i < m {
          assert nodes[..m][i] == nodes[i];
        }
      }
      if exists i, j :: 0 <= i < m && 0 <= j < |attrs| && p in ChannelPlugs(nodes[..m][i], attrs[j]) {
        var i, j :| 0 <= i < m && 0 <= j < |attrs| && p in ChannelPlugs(nodes[..m][i], attrs[j]);
        assert nodes[..m][i] == nodes[i];
      }
    }
  }

  lemma NodeLocksPrefix(n: string, attrs: seq<string>, j: nat)
    requires j < |attrs|
    ensures NodeLocks(n, attrs[..j + 1]) == NodeLocks(n, attrs[..j]) + ChannelPlugs(n, attrs[j])
  {
    assert attrs[..j + 1][..j] == attrs[..j];
  }

  lemma LocksPrefix(nodes: seq<string>, attrs: seq<string>, i: nat)
    requires i < |nodes|
    ensures Locks(nodes[..i + 1], attrs) == Locks(nodes[..i], attrs) + NodeLocks(nodes[i], attrs)
  {
    assert nodes[..i + 1][..i] == nodes[..i];
  }

  /** Locking the channels of one attribute: three `setAttr -lock` for
      translate, rotate and scale, one otherwise. */
  method LockChannel(scene: Scene, n: string, attr: string)
    requires scene.Valid() && n in scene.nodes
    modifies scene
    ensures scene.Valid()
    ensures scene.State() == old(scene.State()).(locked := old(scene.locked) + ChannelPlugs(n, attr))
  {
    if IsTrs(attr) {
      scene.Lock(AxisPlug(n, attr, 'X'));
      scene.Lock(AxisPlug(n, attr, 'Y'));
      scene.Lock(AxisPlug(n, attr, 'Z'));
      SetAdd3(old(scene.locked), AxisPlug(n, attr, 'X'), AxisPlug(n, attr, 'Y'), AxisPlug(n, attr, 'Z'));
    } else {
      scene.Lock(Plug(n, attr));
    }
  }

  /** The channels of one node, attribute by attribute. */
  method LockNode(scene: Scene, n: string, attrs: seq<string>)
    requires scene.Valid() && n in scene.nodes
    modifies scene
    ensures scene.Valid()
    ensures scene.State() == old(scene.State()).(locked := old(scene.locked) + NodeLocks(n, attrs))
  {
    for j := 0 to |attrs|
      invariant scene.Valid()
      invariant scene.State() == old(scene.State()).(locked := old(scene.locked) + NodeLocks(n, attrs[..j]))
    {
      LockChannel(scene, n, attrs[j]);
      NodeLocksPrefix(n, attrs, j);
    }
    assert attrs[..|attrs|] == attrs;
  }

  /** `lock_and_hide`: every listed channel of every node is locked and
      made non-keyable.  A single node is passed as a one-element list. */
  method LockAndHide(scene: Scene, nodes: seq<string>, attributeList: seq<string>)
    requires scene.Valid()
    requires forall i :: 0 <= i < |nodes| ==> nodes[i] in scene.nodes
    modifies scene
    ensures scene.Valid()
    ensures scene.State() == old(scene.State()).(locked := old(scene.locked) + Locks(nodes, LockList(attributeList)))
  {
    var attrs := LockList(attributeList);
    for i := 0 to |nodes|
      invariant scene.Valid()
      invariant scene.State() == old(scene.State()).(locked := old(scene.locked) + Locks(nodes[..i], attrs))
    {
      LockNode(scene, nodes[i], attrs);
      LocksPrefix(nodes, attrs, i);
    }
    assert nodes[..|nodes|] == nodes;
  }

  lemma {:induction false} NodeLocksOn(n: string, attrs: seq<string>, p: Plug)
    requires p in NodeLocks(n, attrs)
    ensures p.node == n
    decreases |attrs|
  {
    var m := |attrs| - 1;
    if p !in ChannelPlugs(n, attrs[m]) {
      NodeLocksOn(n, attrs[..m], p);
    }
  }

  /** A plug is locked exactly when its node is listed and it is among that
      node's locked channels. */
  lemma {:induction false} LockedPlug(nodes: seq<string>, attrs: seq<string>, p: Plug)
    ensures p in Locks(nodes, attrs) <==> p.node in nodes && p in NodeLocks(p.node, attrs)
    decreases |nodes|
  {
    if nodes != [] {
      var m := |nodes| - 1;
      LockedPlug(nodes[..m], attrs, p);
      if p in NodeLocks(nodes[m], attrs) {
        NodeLocksOn(nodes[m], attrs, p);
      }
      assert nodes == nodes[..m] + [nodes[m]];
    }
  }

  lemma NodeLocks2(n: string, x: string, y: string)
    ensures NodeLocks(n, [x, y]) == ChannelPlugs(n, x) + ChannelPlugs(n, y)
  {
    assert [x, y][..1] == [x];
    assert [x][..0] == [];
    assert NodeLocks(n, [x]) == ChannelPlugs(n, x);
  }

  lemma NodeLocks3(n: string, x: string, y: string, z: string)
    ensures NodeLocks(n, [x, y, z]) == ChannelPlugs(n, x) + ChannelPlugs(n, y) + ChannelPlugs(n, z)
  {
    assert [x, y, z][..2] == [x, y];
    NodeLocks2(n, x, y);
  }

  lemma NodeLocks4(n: string, w: string, x: string, y: string, z: string)
    ensures NodeLocks(n, [w, x, y, z]) == ChannelPlugs(n, w) + ChannelPlugs(n, x) + ChannelPlugs(n, y) + ChannelPlugs(n, z)
  {
    assert [w, x, y, z][..3] == [w, x, y];
    NodeLocks3(n, w, x, y);
  }

  /** What `finalize` locks on each kind of control. */
  function FkLocks(c: string): set<Plug>
  {
    XyzPlugs(c, "translate") + XyzPlugs(c, "scale") + {Plug(c, "visibility")}
  }

  function IkLocks(c: string): set<Plug>
  {
    XyzPlugs(c, "scale") + {Plug(c, "visibility")}
  }

  function PvLocks(c: string): set<Plug>
  {
    XyzPlugs(c, "rotate") + XyzPlugs(c, "scale") + {Plug(c, "visibility")}
  }

  function SettingsLocks(c: string): set<Plug>
  {
    XyzPlugs(c, "translate") + XyzPlugs(c, "rotate") + XyzPlugs(c, "scale") + {Plug(c, "visibility")}
  }

  /** The channels `finalize` locks: translate, scale and visibility of the
      FK controls; scale and visibility of the world, local and base
      controls; rotate, scale and visibility of the pole vector control;
      everything on the settings control. */
  function FinalizeLocks(fkCtrls: seq<string>, world: string, local: string, baseCtrl: string, pv: string, st: string): set<Plug>
  {
    Locks(fkCtrls, ["translate", "scale", "visibility"])
      + Locks([world, local, baseCtrl], ["scale", "visibility"])
      + Locks([pv], ["rotate", "scale", "visibility"])
      + Locks([st], LockList([]))
  }

  /** A plug is locked by `finalize` exactly when it is one of the locked
      channels of the control it belongs to, by that control's role. */
  lemma FinalizeLocksAt(fkCtrls: seq<string>, world: string, local: string, baseCtrl: string, pv: string, st: string, p: Plug)
    ensures p in FinalizeLocks(fkCtrls, world, local, baseCtrl, pv, st) <==>
              || (p.node in fkCtrls && p in FkLocks(p.node))
              || (p.node in [world, local, baseCtrl] && p in IkLocks(p.node))
              || (p.node == pv && p in PvLocks(p.node))
              || (p.node == st && p in SettingsLocks(p.node))
  {
    LockedPlug(fkCtrls, ["translate", "scale", "visibility"], p);
    LockedPlug([world, local, baseCtrl], ["scale", "visibility"], p);
    LockedPlug([pv], ["rotate", "scale", "visibility"], p);
    LockedPlug([st], LockList([]), p);
    NodeLocks3(p.node, "translate", "scale", "visibility");
    NodeLocks2(p.node, "scale", "visibility");
    NodeLocks3(p.node, "rotate", "scale", "visibility");
    NodeLocks4(p.node, "translate", "rotate", "scale", "visibility");
  }

  /** FK controls keep rotate free; translate and scale are locked. */
  lemma FkControlLocks(fkCtrls: seq<string>, world: string, local: string, baseCtrl: string, pv: string, st: string, c: string, a: char)
    requires c in fkCtrls
    requires a in "XYZ"
    ensures var l := FinalizeLocks(fkCtrls, world, local, baseCtrl, pv, st);
      AxisPlug(c, "translate", a) in l && AxisPlug(c, "scale", a) in l
    ensures c !in [world, local, baseCtrl] && c != pv && c != st ==>
      AxisPlug(c, "rotate", a) !in FinalizeLocks(fkCtrls, world, local, baseCtrl, pv, st)
  {
    FinalizeLocksAt(fkCtrls, world, local, baseCtrl, pv, st, AxisPlug(c, "rotate", a));
    FinalizeLocksAt(fkCtrls, world, local, baseCtrl, pv, st, AxisPlug(c, "translate", a));
    FinalizeLocksAt(fkCtrls, world, local, baseCtrl, pv, st, AxisPlug(c, "scale", a));
  }

  /** `translateX` is not `visibility`, though both have ten letters. */
  lemma TranslateNotVisibility(a: char)
    ensures "translate" + [a] != "visibility"
  {
    assert ("translate" + [a])[0] != "visibility"[0];
  }

  /** The world, local and base controls keep translate and rotate free;
      scale is locked. */
  lemma IkControlLocks(fkCtrls: seq<string>, world: string, local: string, baseCtrl: string, pv: string, st: string, c: string, a: char)
    requires c in [world, local, baseCtrl]
    requires a in "XYZ"
    ensures AxisPlug(c, "scale", a) in FinalizeLocks(fkCtrls, world, local, baseCtrl, pv, st)
    ensures c !in fkCtrls && c != pv && c != st ==>
      var l := FinalizeLocks(fkCtrls, world, local, baseCtrl, pv, st);
      AxisPlug(c, "translate", a) !in l && AxisPlug(c, "rotate", a) !in l
  {
    TranslateNotVisibility(a);
    FinalizeLocksAt(fkCtrls, world, local, baseCtrl, pv, st, AxisPlug(c, "translate", a));
    FinalizeLocksAt(fkCtrls, world, local, baseCtrl, pv, st, AxisPlug(c, "rotate", a));
    FinalizeLocksAt(fkCtrls, world, local, baseCtrl, pv, st, AxisPlug(c, "scale", a));
  }

  /** The pole vector control keeps translate free; rotate is locked. */
  lemma PvControlLocks(fkCtrls: seq<string>, world: string, local: string, baseCtrl: string, pv: string, st: string, a: char)
    requires a in "XYZ"
    ensures AxisPlug(pv, "rotate", a) in FinalizeLocks(fkCtrls, world, local, baseCtrl, pv, st)
    ensures pv !in fkCtrls && pv !in [world, local, baseCtrl] && pv != st ==>
      AxisPlug(pv, "translate", a) !in FinalizeLocks(fkCtrls, world, local, baseCtrl, pv, st)
  {
    TranslateNotVisibility(a);
    FinalizeLocksAt(fkCtrls, world, local, baseCtrl, pv, st, AxisPlug(pv, "translate", a));
    FinalizeLocksAt(fkCtrls, world, local, baseCtrl, pv, st, AxisPlug(pv, "rotate", a));
  }

  /** The settings control keeps only its switch: translate, rotate, scale
      and visibility are locked, `fkIk` never is. */
  lemma SettingsControlLocks(fkCtrls: seq<string>, world: string, local: string, baseCtrl: string, pv: string, st: string, a: char)
    requires a in "XYZ"
    ensures var l := FinalizeLocks(fkCtrls, world, local, baseCtrl, pv, st);
      && AxisPlug(st, "translate", a) in l && AxisPlug(st, "rotate", a) in l && AxisPlug(st, "scale", a) in l
      && Plug(st, "visibility") in l && Plug(st, "fkIk") !in l
  {
    FinalizeLocksAt(fkCtrls, world, local, baseCtrl, pv, st, AxisPlug(st, "translate", a));
    FinalizeLocksAt(fkCtrls, world, local, baseCtrl, pv, st, AxisPlug(st, "rotate", a));
    FinalizeLocksAt(fkCtrls, world, local, baseCtrl, pv, st, AxisPlug(st, "scale", a));
    FinalizeLocksAt(fkCtrls, world, local, baseCtrl, pv, st, Plug(st, "visibility"));
    FinalizeLocksAt(fkCtrls, world, local, baseCtrl, pv, st, Plug(st, "fkIk"));
  }

  /** The four `lock_and_hide` calls of `finalize`. */
  method LockControls(scene: Scene, fkCtrls: seq<string>, world: string, local: string, baseCtrl: string, pv: string, st: string)
    requires scene.Valid()
    requires forall i :: 0 <= i < |fkCtrls| ==> fkCtrls[i] in scene.nodes
    requires world in scene.nodes && local in scene.nodes && baseCtrl in scene.nodes
    requires pv in scene.nodes && st in scene.nodes
    modifies scene
    ensures scene.Valid()
    ensures scene.State() == old(scene.State()).(locked := old(scene.locked) + FinalizeLocks(fkCtrls, world, local, baseCtrl, pv, st))
  {
    LockAndHide(scene, fkCtrls, ["translate", "scale", "visibility"]);
    LockAndHide(scene, [world, local, baseCtrl], ["scale", "visibility"]);
    LockAndHide(scene, [pv], ["rotate", "scale", "visibility"]);
    LockAndHide(scene, [st], []);
  }

  // ---------------------------------------------------------------------
  // the IK/FK visibility switch
  // ---------------------------------------------------------------------

  /** The connections of the switch: `fkIk` shows the IK controls directly
      and the FK controls through the reverse node `rev`. */
  function VisEdges(st: string, rev: string, fkGrp: string, ikGrp: string): set<Connection>
  {
    {Connection(Plug(st, "fkIk"), Plug(rev, "inputX")),
     Connection(Plug(st, "fkIk"), Plug(ikGrp, "visibility")),
     Connection(Plug(rev, "outputX"), Plug(fkGrp, "visibility"))}
  }

  function VisStep(s: SceneState, st: string, rev: string, fkGrp: string, ikGrp: string): SceneState
  {
    s.(nodes := s.nodes[rev := Reverse],
       connections := s.connections + VisEdges(st, rev, fkGrp, ikGrp))
  }

  /** The FK group's visibility comes from the reverse node, whose input is
      the switch, and the IK group's visibility is the switch itself; the
      reverse node has no connection in or out besides those two. */
  lemma VisWired(s: SceneState, st: string, rev: string, fkGrp: string, ikGrp: string)
    requires WellFormed(s)
    requires rev !in s.nodes && st in s.nodes && fkGrp in s.nodes && ikGrp in s.nodes
    ensures var t := VisStep(s, st, rev, fkGrp, ikGrp);
      && t.nodes[rev] == Reverse
      && Connection(Plug(st, "fkIk"), Plug(rev, "inputX")) in t.connections
      && Connection(Plug(rev, "outputX"), Plug(fkGrp, "visibility")) in t.connections
      && Connection(Plug(st, "fkIk"), Plug(ikGrp, "visibility")) in t.connections
      && (forall c :: c in t.connections && c.dst.node == rev ==> c == Connection(Plug(st, "fkIk"), Plug(rev, "inputX")))
      && (forall c :: c in t.connections && c.src.node == rev ==> c == Connection(Plug(rev, "outputX"), Plug(fkGrp, "visibility")))
  {
  }

  /** `finalize`'s visibility switch. */
  method AddVisSwitch(scene: Scene, ghost k: set<string>, base: string, st: string, fkGrp: string, ikGrp: string)
    returns (rev: string)
    requires Extends(scene.State(), k)
    requires st in scene.nodes && fkGrp in scene.nodes && ikGrp in scene.nodes
    modifies scene
    ensures Extends(scene.State(), k)
    ensures rev !in old(scene.nodes) && (VisReverseName(base) !in old(scene.nodes) ==> rev == VisReverseName(base))
    ensures scene.nodes.Keys == old(scene.nodes.Keys) + {rev}
    ensures scene.State() == VisStep(old(scene.State()), st, rev, fkGrp, ikGrp)
  {
    rev := scene.CreateNode(VisReverseName(base), Reverse);
    ghost var s1 := scene.State();
    scene.ConnectAttr(Plug(st, "fkIk"), Plug(rev, "inputX"));
    scene.ConnectAttr(Plug(st, "fkIk"), Plug(ikGrp, "visibility"));
    scene.ConnectAttr(Plug(rev, "outputX"), Plug(fkGrp, "visibility"));
    SetAdd3(old(scene.connections), Connection(Plug(st, "fkIk"), Plug(rev, "inputX")),
            Connection(Plug(st, "fkIk"), Plug(ikGrp, "visibility")), Connection(Plug(rev, "outputX"), Plug(fkGrp, "visibility")));
    ExtendsKept(s1, scene.State(), k);
  }

  // ---------------------------------------------------------------------
  // add_guide
  // ---------------------------------------------------------------------

  /** The nodes of a guide line: a curve between two points, and per end a
      cluster deformer with the handle that moves that end. */
  datatype Guide = Guide(curve: string, startCluster: string, startHandle: string, endCluster: string, endHandle: string)

  function GuideNodes(gd: Guide): seq<string>
  {
    [gd.curve, gd.startCluster, gd.startHandle, gd.endCluster, gd.endHandle]
  }

  /** The names `add_guide` asks for; a cluster handle is named after the
      cluster it belongs to. */
  function GuideRequests(start: string, end: string, gd: Guide): seq<string>
  {
    [GuideName(start), ClusterName(start), gd.startCluster + "Handle", ClusterName(end), gd.endCluster + "Handle"]
  }

  /** The scene after `add_guide(start, end)`: the curve's first point
      follows `start` and its second `end`, each through a cluster handle
      point-constrained without offset; the curve is templated and ignores
      its parents' transforms. */
  function GuideStep(s: SceneState, start: string, end: string, gd: Guide): SceneState
  {
    s.(nodes := s.nodes[gd.curve := Curve][gd.startCluster := Cluster][gd.startHandle := ClusterHandle(gd.curve, 0)]
                       [gd.endCluster := Cluster][gd.endHandle := ClusterHandle(gd.curve, 1)],
       constraints := s.constraints + {Constraint(PointConstraint, start, gd.startHandle, false),
                                       Constraint(PointConstraint, end, gd.endHandle, false)},
       values := s.values[Plug(gd.curve, "template") := 1.0][Plug(gd.curve, "inheritsTransform") := 0.0])
  }

  /** Each end of the guide line is held by its own handle, which follows
      that end's node. */
  lemma GuideFollows(s: SceneState, start: string, end: string, gd: Guide)
    requires Distinct(GuideNodes(gd))
    ensures var t := GuideStep(s, start, end, gd);
      && t.nodes[gd.curve] == Curve
      && t.nodes[gd.startHandle] == ClusterHandle(gd.curve, 0)
      && t.nodes[gd.endHandle] == ClusterHandle(gd.curve, 1)
      && Constraint(PointConstraint, start, gd.startHandle, false) in t.constraints
      && Constraint(PointConstraint, end, gd.endHandle, false) in t.constraints
      && t.values[Plug(gd.curve, "template")] == 1.0
      && t.values[Plug(gd.curve, "inheritsTransform")] == 0.0
  {
    var ns := GuideNodes(gd);
    assert ns[0] != ns[1] && ns[0] != ns[2] && ns[0] != ns[3] && ns[0] != ns[4];
    assert ns[2] != ns[3] && ns[2] != ns[4];
  }

  lemma GuideNamed(t0: set<string>, t1: set<string>, t2: set<string>, t3: set<string>, t4: set<string>,
                   t5: set<string>, gd: Guide, start: string, end: string)
    requires t1 == t0 + {gd.curve} && t2 == t1 + {gd.startCluster} && t3 == t2 + {gd.startHandle}
    requires t4 == t3 + {gd.endCluster} && t5 == t4 + {gd.endHandle}
    requires gd.curve !in t0 && gd.startCluster !in t1 && gd.startHandle !in t2 && gd.endCluster !in t3 && gd.endHandle !in t4
    requires GuideName(start) !in t0 ==> gd.curve == GuideName(start)
    requires ClusterName(start) !in t1 ==> gd.startCluster == ClusterName(start)
    requires gd.startCluster + "Handle" !in t2 ==> gd.startHandle == gd.startCluster + "Handle"
    requires ClusterName(end) !in t3 ==> gd.endCluster == ClusterName(end)
    requires gd.endCluster + "Handle" !in t4 ==> gd.endHandle == gd.endCluster + "Handle"
    ensures FreshNames(GuideNodes(gd), t0) && NamedAsRequested(t0, GuideRequests(start, end, gd), GuideNodes(gd))
  {
    StepwiseNames([t0, t1, t2, t3, t4, t5], GuideNodes(gd), GuideRequests(start, end, gd));
  }

  /** The nodes of `add_guide`, made in order. */
  method MakeGuideNodes(scene: Scene, start: string, end: string) returns (gd: Guide)
    requires scene.Valid()
    modifies scene
    ensures scene.Valid()
    ensures FreshNames(GuideNodes(gd), old(scene.nodes.Keys))
    ensures NamedAsRequested(old(scene.nodes.Keys), GuideRequests(start, end, gd), GuideNodes(gd))
    ensures gd.curve !in old(scene.nodes) && gd.startHandle !in old(scene.nodes) && gd.endHandle !in old(scene.nodes)
    ensures scene.State() == old(scene.State()).(nodes := old(scene.nodes)[gd.curve := Curve][gd.startCluster := Cluster]
                                                  [gd.startHandle := ClusterHandle(gd.curve, 0)]
                                                  [gd.endCluster := Cluster][gd.endHandle := ClusterHandle(gd.curve, 1)])
  {
    ghost var t0 := scene.nodes.Keys;
    var crv := scene.CreateNode(GuideName(start), Curve);
    ghost var t1 := scene.nodes.Keys;
    var sc := scene.CreateNode(ClusterName(start), Cluster);
    ghost var t2 := scene.nodes.Keys;
    var sh := scene.CreateNode(sc + "Handle", ClusterHandle(crv, 0));
    ghost var t3 := scene.nodes.Keys;
    var ec := scene.CreateNode(ClusterName(end), Cluster);
    ghost var t4 := scene.nodes.Keys;
    var eh := scene.CreateNode(ec + "Handle", ClusterHandle(crv, 1));
    gd := Guide(crv, sc, sh, ec, eh);
    GuideNamed(t0, t1, t2, t3, t4, scene.nodes.Keys, gd, start, end);
  }

  /** `add_guide`: a templated line from `start` to `end`.  Where the
      points sit is geometry and is not part of this model. */
  method AddGuide(scene: Scene, ghost k: set<string>, start: string, end: string) returns (gd: Guide)
    requires Extends(scene.State(), k)
    requires start in scene.nodes && end in scene.nodes
    modifies scene
    ensures Extends(scene.State(), k)
    ensures FreshNames(GuideNodes(gd), old(scene.nodes.Keys))
    ensures NamedAsRequested(old(scene.nodes.Keys), GuideRequests(start, end, gd), GuideNodes(gd))
    ensures old(scene.nodes.Keys) <= scene.nodes.Keys
    ensures gd.curve in scene.nodes && gd.startHandle in scene.nodes && gd.endHandle in scene.nodes
    ensures gd.curve !in old(scene.nodes) && gd.startHandle !in old(scene.nodes) && gd.endHandle !in old(scene.nodes)
    ensures scene.State() == GuideStep(old(scene.State()), start, end, gd)
  {
    gd := MakeGuideNodes(scene, start, end);
    ghost var s1 := scene.State();
    ExtendsKept(old(scene.State()), s1, k);
    scene.Constrain(PointConstraint, start, gd.startHandle, false);
    scene.Constrain(PointConstraint, end, gd.endHandle, false);
    scene.SetAttr(Plug(gd.curve, "template"), 1.0);
    scene.SetAttr(Plug(gd.curve, "inheritsTransform"), 0.0);
    ExtendsKept(s1, scene.State(), k);
  }

  // ---------------------------------------------------------------------
  // finalize
  // ---------------------------------------------------------------------

  /** The controls `finalize` works on. */
  datatype Controls = Controls(fk: seq<string>, world: string, local: string, baseCtrl: string, pv: string, settings: string)

  function ControlLocks(c: Controls): set<Plug>
  {
    FinalizeLocks(c.fk, c.world, c.local, c.baseCtrl, c.pv, c.settings)
  }

  /** The scene after `finalize` up to the removal of the guides: controls
      coloured, channels locked, the visibility switch wired, and the pole
      vector guide drawn to the second IK joint, its handles filed under the
      no-transform group and its curve under the IK controls. */
  function FinalizedBody(s: SceneState, side: string, base: string, dict: ColorDict, c: Controls, g: Groups,
                         ik1: string, rev: string, gd: Guide): SceneState
  {
    var t := s.(colors := ColorsApplied(s.colors, s.tags, side, base, ColorsInUse(dict, base)),
                locked := s.locked + ControlLocks(c));
    var u := GuideStep(VisStep(t, c.settings, rev, g.fk, g.ik), c.pv, ik1, gd);
    u.(parent := (u.parent + ParentsOf([gd.startHandle, gd.endHandle], g.noXform))[gd.curve := g.ik])
  }

  /** The whole of `finalize`: with `removeGuides` the guide joints and the
      pole vector guide go, with everything below them. */
  function FinalizeStep(s: SceneState, side: string, base: string, dict: ColorDict, c: Controls, g: Groups,
                        ik1: string, rev: string, gd: Guide, guides: seq<string>, removeGuides: bool): SceneState
  {
    var b := FinalizedBody(s, side, base, dict, c, g, ik1, rev, gd);
    if removeGuides then Deleted(b, Elems(guides)) else b
  }

  /** Removing the guides takes them out of the scene and keeps every node
      the build made, because the build never hangs its nodes below nodes
      that were there before it. */
  lemma GuidesRemoved(s: SceneState, k: set<string>, guides: seq<string>)
    requires RootedIn(s.parent, k)
    requires Elems(guides) <= k
    ensures var t := Deleted(s, Elems(guides));
      && (forall n :: n in guides ==> n !in t.nodes)
      && s.nodes.Keys - k <= t.nodes.Keys
  {
    OutsideSurvives(s, k, Elems(guides));
    forall n | n in guides
      ensures n in s.nodes ==> n in Doomed(s, Elems(guides))
    {
      assert n in Elems(guides);
    }
  }

  /** Colours and locks. */
  method StyleControls(scene: Scene, ghost k: set<string>, side: string, base: string, dict: ColorDict, c: Controls)
    requires Extends(scene.State(), k)
    requires forall i :: 0 <= i < |c.fk| ==> c.fk[i] in scene.nodes
    requires c.world in scene.nodes && c.local in scene.nodes && c.baseCtrl in scene.nodes
    requires c.pv in scene.nodes && c.settings in scene.nodes
    modifies scene
    ensures Extends(scene.State(), k)
    ensures scene.nodes == old(scene.nodes)
    ensures scene.State() == old(scene.State()).(colors := ColorsApplied(old(scene.colors), old(scene.tags), side, base, ColorsInUse(dict, base)),
                                                 locked := old(scene.locked) + ControlLocks(c))
  {
    ColorControls(scene, side, base, ColorsInUse(dict, base));
    LockControls(scene, c.fk, c.world, c.local, c.baseCtrl, c.pv, c.settings);
    ExtendsKept(old(scene.State()), scene.State(), k);
  }

  /** The guide's handles go to the no-transform group and its curve to the
      IK controls. */
  method FileGuide(scene: Scene, ghost k: set<string>, gd: Guide, noXform: string, ikGrp: string)
    requires Extends(scene.State(), k)
    requires gd.curve in scene.nodes && gd.startHandle in scene.nodes && gd.endHandle in scene.nodes
    requires gd.curve !in k && gd.startHandle !in k && gd.endHandle !in k
    requires noXform in scene.nodes && ikGrp in scene.nodes && noXform !in k && ikGrp !in k
    modifies scene
    ensures Extends(scene.State(), k)
    ensures scene.State() == old(scene.State()).(parent := (old(scene.parent) + ParentsOf([gd.startHandle, gd.endHandle], noXform))[gd.curve := ikGrp])
  {
    RootedInParents(scene.parent, k, [gd.startHandle, gd.endHandle], noXform);
    scene.ParentAll([gd.startHandle, gd.endHandle], noXform);
    RootedInUpdate(scene.parent, k, gd.curve, ikGrp);
    scene.Parent(gd.curve, ikGrp);
  }

  /** `finalize` up to the removal of the guides. */
  method FinalizeBody(scene: Scene, ghost k: set<string>, side: string, base: string, dict: ColorDict, c: Controls, g: Groups, ik1: string)
    returns (rev: string, gd: Guide)
    requires Extends(scene.State(), k)
    requires forall i :: 0 <= i < |c.fk| ==> c.fk[i] in scene.nodes
    requires c.world in scene.nodes && c.local in scene.nodes && c.baseCtrl in scene.nodes
    requires c.pv in scene.nodes && c.settings in scene.nodes && ik1 in scene.nodes
    requires g.fk in scene.nodes && g.ik in scene.nodes && g.noXform in scene.nodes
    requires g.ik !in k && g.noXform !in k
    modifies scene
    ensures Extends(scene.State(), k)
    ensures rev !in old(scene.nodes) && (VisReverseName(base) !in old(scene.nodes) ==> rev == VisReverseName(base))
    ensures FreshNames(GuideNodes(gd), old(scene.nodes.Keys) + {rev})
    ensures NamedAsRequested(old(scene.nodes.Keys) + {rev}, GuideRequests(c.pv, ik1, gd), GuideNodes(gd))
    ensures old(scene.nodes.Keys) <= scene.nodes.Keys && rev in scene.nodes && gd.curve in scene.nodes
    ensures scene.State() == FinalizedBody(old(scene.State()), side, base, dict, c, g, ik1, rev, gd)
  {
    StyleControls(scene, k, side, base, dict, c);
    rev := AddVisSwitch(scene, k, base, c.settings, g.fk, g.ik);
    gd := AddGuide(scene, k, c.pv, ik1);
    FileGuide(scene, k, gd, g.noXform, g.ik);
  }

  /** `finalize`.  The nodes the build made all survive it. */
  method FinalizeRig(scene: Scene, ghost k: set<string>, side: string, base: string, dict: ColorDict, c: Controls, g: Groups,
                     ik1: string, guides: seq<string>, removeGuides: bool)
    returns (rev: string, gd: Guide)
    requires Extends(scene.State(), k)
    requires forall i :: 0 <= i < |c.fk| ==> c.fk[i] in scene.nodes
    requires c.world in scene.nodes && c.local in scene.nodes && c.baseCtrl in scene.nodes
    requires c.pv in scene.nodes && c.settings in scene.nodes && ik1 in scene.nodes
    requires g.fk in scene.nodes && g.ik in scene.nodes && g.noXform in scene.nodes
    requires g.ik !in k && g.noXform !in k
    requires forall i :: 0 <= i < |guides| ==> guides[i] in k
    modifies scene
    ensures scene.Valid()
    ensures rev !in old(scene.nodes) && (VisReverseName(base) !in old(scene.nodes) ==> rev == VisReverseName(base))
    ensures FreshNames(GuideNodes(gd), old(scene.nodes.Keys) + {rev})
    ensures NamedAsRequested(old(scene.nodes.Keys) + {rev}, GuideRequests(c.pv, ik1, gd), GuideNodes(gd))
    ensures scene.State() == FinalizeStep(old(scene.State()), side, base, dict, c, g, ik1, rev, gd, guides, removeGuides)
    ensures old(scene.nodes.Keys) - k <= scene.nodes.Keys
    ensures rev in scene.nodes && gd.curve in scene.nodes
    ensures !removeGuides ==> old(scene.nodes.Keys) <= scene.nodes.Keys
    ensures removeGuides ==> forall n :: n in guides ==> n !in scene.nodes
  {
    rev, gd := FinalizeBody(scene, k, side, base, dict, c, g, ik1);
    ghost var b := scene.State();
    assert gd.curve == GuideNodes(gd)[0] && gd.curve !in k;
    assert b.nodes.Keys - k <= scene.nodes.Keys && rev in b.nodes.Keys - k && gd.curve in b.nodes.Keys - k;
    if removeGuides {
      GuidesRemoved(b, k, guides);
      scene.Delete(guides);
    }
  }
}
