/** The three joint chains (IK, FK, bind) and the blend network that drives
    the bind chain from the other two. */
module Chains {
  import opened Common
  import opened Names
  import opened SceneGraph

  // ---------------------------------------------------------------------
  // create_chain
  // ---------------------------------------------------------------------

  /** The parent links `create_chain` makes: each joint goes under the joint
      made just before it, except a joint whose guide equals the first guide,
      which starts again at the top. */
  ghost function ChainLinks(guides: seq<string>, chain: seq<string>): map<string, string>
    requires |chain| <= |guides|
    decreases |chain|
  {
    if |chain| <= 1 then map[]
    else
      var n := |chain| - 1;
      var m := ChainLinks(guides, chain[..n]);
      if guides[n] == guides[0] then m else m[chain[n] := chain[n - 1]]
  }

  /** With distinct guides the chain is a single line: every joint after the
      first hangs under its predecessor and the first has no parent. */
  lemma {:induction false} ChainLinksOfDistinctGuides(guides: seq<string>, chain: seq<string>)
    requires |chain| <= |guides|
    requires Distinct(guides) && Distinct(chain)
    ensures chain != [] ==> chain[0] !in ChainLinks(guides, chain)
    ensures forall i :: 0 < i < |chain| ==>
              chain[i] in ChainLinks(guides, chain) && ChainLinks(guides, chain)[chain[i]] == chain[i - 1]
    ensures ChainLinks(guides, chain).Keys == Elems(chain) - (if chain == [] then {} else {chain[0]})
    decreases |chain|
  {
    if |chain| > 1 {
      var n := |chain| - 1;
      var pre := chain[..n];
      ChainLinksOfDistinctGuides(guides, pre);
      assert guides[n] != guides[0];
      var m := ChainLinks(guides, pre);
      assert ChainLinks(guides, chain) == m[chain[n] := chain[n - 1]];
      assert chain[n] != chain[0];
      forall i | 0 < i < |chain|
        ensures chain[i] in ChainLinks(guides, chain) && ChainLinks(guides, chain)[chain[i]] == chain[i - 1]
      {
        if i < n {
          assert chain[i] == pre[i] && chain[i - 1] == pre[i - 1];
          assert chain[i] != chain[n];
        }
      }
      assert Elems(chain) == Elems(pre) + {chain[n]} by {
        assert chain == pre + [chain[n]];
      }
    }
  }

  /** A guide that repeats the first one makes its joint start a new,
      unparented chain. */
  lemma {:induction false} RepeatedFirstGuideRestarts(guides: seq<string>, chain: seq<string>, i: nat)
    requires |chain| <= |guides|
    requires Distinct(chain)
    requires i < |chain| && guides[i] == guides[0]
    ensures chain[i] !in ChainLinks(guides, chain)
    decreases |chain|
  {
    if |chain| > 1 {
      var n := |chain| - 1;
      if i < n {
        RepeatedFirstGuideRestarts(guides, chain[..n], i);
        assert chain[n] != chain[i];
      } else {
        ChainLinksKeys(guides, chain[..n]);
        assert chain[n] !in chain[..n];
      }
    }
  }

  lemma ChainLinksSnoc(guides: seq<string>, chain: seq<string>, x: string)
    requires |chain| < |guides|
    ensures ChainLinks(guides, chain + [x])
         == if chain == [] || guides[|chain|] == guides[0] then ChainLinks(guides, chain)
            else ChainLinks(guides, chain)[x := chain[|chain| - 1]]
  {
    assert (chain + [x])[..|chain|] == chain;
  }

  lemma {:induction false} ChainLinksKeys(guides: seq<string>, chain: seq<string>)
    requires |chain| <= |guides|
    ensures ChainLinks(guides, chain).Keys <= Elems(chain)
    ensures forall c :: c in ChainLinks(guides, chain) ==> ChainLinks(guides, chain)[c] in chain
    decreases |chain|
  {
    if |chain| > 1 {
      var n := |chain| - 1;
      ChainLinksKeys(guides, chain[..n]);
      assert chain == chain[..n] + [chain[n]];
    }
  }

  /** What `create_chain` has built after its first `|chain|` joints. */
  ghost predicate ChainBuilt(s0: SceneState, s: SceneState, k: set<string>, side: string, guides: seq<string>,
                             aliases: seq<string>, suffix: string, chain: seq<string>)
  {
    && |chain| <= |guides| && |chain| <= |aliases|
    && RootedIn(s.parent, k)
    && FreshNames(chain, s0.nodes.Keys)
    && NamedAsRequested(s0.nodes.Keys, JointNames(side, aliases[..|chain|], suffix), chain)
    && s.nodes == s0.nodes + NodesOf(chain, Joint)
    && s.parent == s0.parent + ChainLinks(guides, chain)
    && s == s0.(nodes := s.nodes, parent := s.parent)
  }

  /** `cmds.joint(par, n=requested)`: a joint, under `par` when there is one. */
  method AddJoint(scene: Scene, requested: string, par: Option<string>) returns (name: string)
    requires scene.Valid()
    requires par.Some? ==> par.value in scene.nodes
    modifies scene
    ensures scene.Valid()
    ensures name !in old(scene.nodes)
    ensures requested !in old(scene.nodes) ==> name == requested
    ensures scene.State() == old(scene.State()).(
              nodes := old(scene.nodes)[name := Joint],
              parent := if par.Some? then old(scene.parent)[name := par.value] else old(scene.parent))
  {
    name := scene.CreateNode(requested, Joint);
    if par.Some? {
      scene.Parent(name, par.value);
    }
  }

  /** Adding the joint for guide `|chain|` to a partial `create_chain`
      result gives the next partial result. */
  lemma ChainBuiltSnoc(s0: SceneState, s1: SceneState, s2: SceneState, k: set<string>, side: string, guides: seq<string>,
                       aliases: seq<string>, suffix: string, chain: seq<string>, name: string)
    requires |chain| < |guides| && |chain| < |aliases|
    requires ChainBuilt(s0, s1, k, side, guides, aliases, suffix, chain)
    requires k <= s0.nodes.Keys
    requires name !in s1.nodes
    requires JointName(side, aliases[|chain|], suffix) !in s1.nodes ==> name == JointName(side, aliases[|chain|], suffix)
    requires var linked := chain != [] && guides[|chain|] != guides[0];
             s2 == s1.(nodes := s1.nodes[name := Joint],
                       parent := if linked then s1.parent[name := chain[|chain| - 1]] else s1.parent)
    ensures ChainBuilt(s0, s2, k, side, guides, aliases, suffix, chain + [name])
  {
    var i := |chain|;
    assert s1.nodes.Keys == s0.nodes.Keys + Elems(chain);
    FreshNamesSnoc(chain, s0.nodes.Keys, name);
    if chain != [] && guides[i] != guides[0] {
      assert chain[i - 1] !in k;
      RootedInUpdate(s1.parent, k, name, chain[i - 1]);
      MapUnionUpdate(s0.parent, ChainLinks(guides, chain), name, chain[i - 1]);
    }
    ChainLinksSnoc(guides, chain, name);
    MapUnionUpdate(s0.nodes, NodesOf(chain, Joint), name, Joint);
    NodesOfSnoc(chain, name, Joint);
    JointNamesSnoc(side, aliases, i, suffix);
    assert (chain + [name])[..i] == chain;
    NamedAsRequestedSnoc(s0.nodes.Keys, JointNames(side, aliases[..i], suffix), chain, JointName(side, aliases[i], suffix), name);
  }

  /** The scene after `create_chain` made the joints `chain`. */
  ghost function Chained(s: SceneState, guides: seq<string>, chain: seq<string>): SceneState
    requires |chain| <= |guides|
  {
    s.(nodes := s.nodes + NodesOf(chain, Joint), parent := s.parent + ChainLinks(guides, chain))
  }

  /** `create_chain`: one joint per (guide, alias) pair, named
      `{side}_{alias}_{suffix}_JNT`, each parented under the previous joint
      unless its guide is the first guide. */
  method CreateChain(scene: Scene, ghost k: set<string>, side: string, guides: seq<string>, aliases: seq<string>, suffix: string)
    returns (chain: seq<string>)
    requires Extends(scene.State(), k)
    modifies scene
    ensures Extends(scene.State(), k)
    ensures |chain| == Min(|guides|, |aliases|)
    ensures FreshNames(chain, old(scene.nodes.Keys))
    ensures NamedAsRequested(old(scene.nodes.Keys), JointNames(side, aliases[..|chain|], suffix), chain)
    ensures scene.State() == Chained(old(scene.State()), guides, chain)
  {
    ghost var s0 := scene.State();
    var n := Min(|guides|, |aliases|);
    chain := [];
    var jnt := "";
    for i := 0 to n
      invariant |chain| == i
      invariant scene.Valid()
      invariant ChainBuilt(s0, scene.State(), k, side, guides, aliases, suffix, chain)
      invariant i > 0 ==> jnt == chain[i - 1]
    {
      var par := if guides[i] == guides[0] then None else Some(jnt);
      ghost var s1 := scene.State();
      var name := AddJoint(scene, JointName(side, aliases[i], suffix), par);
      ChainBuiltSnoc(s0, s1, scene.State(), k, side, guides, aliases, suffix, chain, name);
      chain := chain + [name];
      jnt := name;
    }
  }

  // ---------------------------------------------------------------------
  // blend_chains
  // ---------------------------------------------------------------------

  const Channels: seq<string> := ["translate", "rotate", "scale"]

  /** The plug every blend node takes its blender from. */
  function SwitchPlug(base: string): Plug
  {
    Plug(SettingsCtrlName(base), "fkIk")
  }

  /** Blend node `j` serves joint `j / 3` and channel `j % 3`: the build
      loops over joints, and over the three channels inside. */
  datatype Slot = Slot(joint: nat, channel: nat)

  function SlotOf(j: nat): (r: Slot)
    ensures 3 * r.joint + r.channel == j && r.channel < 3
  {
    if j < 3 then Slot(0, j) else var r := SlotOf(j - 3); Slot(r.joint + 1, r.channel)
  }

  /** The four connections of the blend node of joint `i`, channel `c`. */
  function BlendEdgesOf(ik: string, fk: string, bind: string, bcn: string, channel: string, blender: Plug): set<Connection>
  {
    { Connection(Plug(ik, channel), Plug(bcn, "color1")),
      Connection(Plug(fk, channel), Plug(bcn, "color2")),
      Connection(blender, Plug(bcn, "blender")),
      Connection(Plug(bcn, "output"), Plug(bind, channel)) }
  }

  function Min3(a: int, b: int, c: int): int
  {
    Min(a, Min(b, c))
  }

  /** The connections of the blend nodes `bcns`, the `j`-th of which serves
      joint and channel of slot `j`. */
  ghost function BlendEdges(ik: seq<string>, fk: seq<string>, bind: seq<string>, bcns: seq<string>, blender: Plug): set<Connection>
    requires |bcns| <= 3 * Min3(|ik|, |fk|, |bind|)
    decreases |bcns|
  {
    if bcns == [] then {}
    else
      var j := |bcns| - 1;
      BlendEdges(ik, fk, bind, bcns[..j], blender)
        + BlendEdgesOf(ik[SlotOf(j).joint], fk[SlotOf(j).joint], bind[SlotOf(j).joint], bcns[j], Channels[SlotOf(j).channel], blender)
  }

  lemma {:induction false} BlendEdgesContain(ik: seq<string>, fk: seq<string>, bind: seq<string>, bcns: seq<string>, blender: Plug, j: nat)
    requires |bcns| <= 3 * Min3(|ik|, |fk|, |bind|)
    requires j < |bcns|
    ensures BlendEdgesOf(ik[SlotOf(j).joint], fk[SlotOf(j).joint], bind[SlotOf(j).joint], bcns[j], Channels[SlotOf(j).channel], blender)
            <= BlendEdges(ik, fk, bind, bcns, blender)
    decreases |bcns|
  {
    if j < |bcns| - 1 {
      BlendEdgesContain(ik, fk, bind, bcns[..|bcns| - 1], blender, j);
    }
  }

  lemma BlendEdgesSnoc(ik: seq<string>, fk: seq<string>, bind: seq<string>, bcns: seq<string>, x: string, blender: Plug)
    requires |bcns| < 3 * Min3(|ik|, |fk|, |bind|)
    ensures BlendEdges(ik, fk, bind, bcns + [x], blender)
         == BlendEdges(ik, fk, bind, bcns, blender)
            + BlendEdgesOf(ik[SlotOf(|bcns|).joint], fk[SlotOf(|bcns|).joint], bind[SlotOf(|bcns|).joint], x, Channels[SlotOf(|bcns|).channel], blender)
  {
    assert (bcns + [x])[..|bcns|] == bcns;
  }

  /** The names `blend_chains` asks for: the bind joint's name with
      `bind_JNT` replaced by `{channel}_BCN`. */
  function BlendRequests(bind: seq<string>, count: nat): (r: seq<string>)
    requires count <= 3 * |bind|
    ensures |r| == count
  {
    if count == 0 then []
    else BlendRequests(bind, count - 1) + [BlendName(bind[SlotOf(count - 1).joint], Channels[SlotOf(count - 1).channel])]
  }

  /** The `j`-th name asked for is that of the bind joint and channel of slot `j`. */
  lemma {:induction false} BlendRequestsAt(bind: seq<string>, count: nat, j: nat)
    requires count <= 3 * |bind| && j < count
    ensures BlendRequests(bind, count)[j] == BlendName(bind[SlotOf(j).joint], Channels[SlotOf(j).channel])
  {
    if j < count - 1 {
      BlendRequestsAt(bind, count - 1, j);
    }
  }

  lemma BlendRequestsSnoc(bind: seq<string>, count: nat)
    requires count < 3 * |bind|
    ensures BlendRequests(bind, count + 1) == BlendRequests(bind, count) + [BlendName(bind[SlotOf(count).joint], Channels[SlotOf(count).channel])]
  {
  }

  /** What `blend_chains` has built after its first `|bcns|` blend nodes. */
  ghost predicate BlendBuilt(s0: SceneState, s: SceneState, base: string,
                             ik: seq<string>, fk: seq<string>, bind: seq<string>, bcns: seq<string>)
  {
    && |bcns| <= 3 * Min3(|ik|, |fk|, |bind|)
    && FreshNames(bcns, s0.nodes.Keys)
    && NamedAsRequested(s0.nodes.Keys, BlendRequests(bind, |bcns|), bcns)
    && s.nodes == s0.nodes + NodesOf(bcns, BlendColors)
    && s.connections == s0.connections + BlendEdges(ik, fk, bind, bcns, SwitchPlug(base))
    && s == s0.(nodes := s.nodes, connections := s.connections)
  }

  /** The four connections of one blend node. */
  method ConnectBlendNode(scene: Scene, ik: string, fk: string, bind: string, bcn: string, channel: string, blender: Plug)
    requires scene.Valid()
    requires ik in scene.nodes && fk in scene.nodes && bind in scene.nodes && bcn in scene.nodes
    requires blender.node in scene.nodes
    modifies scene
    ensures scene.Valid()
    ensures scene.State() == old(scene.State()).(connections := old(scene.connections) + BlendEdgesOf(ik, fk, bind, bcn, channel, blender))
  {
    scene.ConnectAttr(Plug(ik, channel), Plug(bcn, "color1"));
    scene.ConnectAttr(Plug(fk, channel), Plug(bcn, "color2"));
    scene.ConnectAttr(blender, Plug(bcn, "blender"));
    scene.ConnectAttr(Plug(bcn, "output"), Plug(bind, channel));
  }

  /** The names part of `BlendBuiltSnoc`. */
  lemma BlendNamesSnoc(before: set<string>, bind: seq<string>, bcns: seq<string>, i: nat, c: nat, bcn: string)
    requires c < 3 && |bcns| == 3 * i + c && i < |bind|
    requires NamedAsRequested(before, BlendRequests(bind, |bcns|), bcns)
    requires BlendName(bind[i], Channels[c]) !in before && BlendName(bind[i], Channels[c]) !in bcns ==>
               bcn == BlendName(bind[i], Channels[c])
    ensures NamedAsRequested(before, BlendRequests(bind, |bcns| + 1), bcns + [bcn])
  {
    assert SlotOf(|bcns|) == Slot(i, c);
    BlendRequestsSnoc(bind, |bcns|);
    NamedAsRequestedSnoc(before, BlendRequests(bind, |bcns|), bcns, BlendName(bind[i], Channels[c]), bcn);
  }

  /** The connections part of `BlendBuiltSnoc`. */
  lemma BlendEdgesStep(ik: seq<string>, fk: seq<string>, bind: seq<string>, bcns: seq<string>, i: nat, c: nat, bcn: string, blender: Plug)
    requires c < 3 && |bcns| == 3 * i + c && i < Min3(|ik|, |fk|, |bind|)
    ensures BlendEdges(ik, fk, bind, bcns + [bcn], blender)
         == BlendEdges(ik, fk, bind, bcns, blender) + BlendEdgesOf(ik[i], fk[i], bind[i], bcn, Channels[c], blender)
  {
    assert SlotOf(|bcns|) == Slot(i, c);
    BlendEdgesSnoc(ik, fk, bind, bcns, bcn, blender);
  }

  /** Adding one blend node and its connections to a partial
      `blend_chains` result gives the next partial result. */
  lemma BlendBuiltSnoc(s0: SceneState, s1: SceneState, s2: SceneState, base: string,
                       ik: seq<string>, fk: seq<string>, bind: seq<string>, bcns: seq<string>, i: nat, c: nat, bcn: string)
    requires c < 3 && |bcns| == 3 * i + c && i < Min3(|ik|, |fk|, |bind|)
    requires BlendBuilt(s0, s1, base, ik, fk, bind, bcns)
    requires bcn !in s1.nodes
    requires BlendName(bind[i], Channels[c]) !in s1.nodes ==> bcn == BlendName(bind[i], Channels[c])
    requires s2 == s1.(nodes := s1.nodes[bcn := BlendColors],
                       connections := s1.connections + BlendEdgesOf(ik[i], fk[i], bind[i], bcn, Channels[c], SwitchPlug(base)))
    ensures BlendBuilt(s0, s2, base, ik, fk, bind, bcns + [bcn])
  {
    assert s1.nodes.Keys == s0.nodes.Keys + Elems(bcns);
    FreshNamesSnoc(bcns, s0.nodes.Keys, bcn);
    BlendNamesSnoc(s0.nodes.Keys, bind, bcns, i, c, bcn);
    BlendEdgesStep(ik, fk, bind, bcns, i, c, bcn, SwitchPlug(base));
    MapUnionUpdate(s0.nodes, NodesOf(bcns, BlendColors), bcn, BlendColors);
    NodesOfSnoc(bcns, bcn, BlendColors);
  }

  /** One pass of the inner `blend_chains` loop: the blend node of bind
      joint `bind` and channel `attr`, with its four connections. */
  method AddBlendNode(scene: Scene, base: string, ik: string, fk: string, bind: string, attr: string)
    returns (bcn: string)
    requires scene.Valid()
    requires ik in scene.nodes && fk in scene.nodes && bind in scene.nodes
    requires SettingsCtrlName(base) in scene.nodes
    modifies scene
    ensures scene.Valid()
    ensures bcn !in old(scene.nodes)
    ensures BlendName(bind, attr) !in old(scene.nodes) ==> bcn == BlendName(bind, attr)
    ensures scene.State() == old(scene.State()).(
              nodes := old(scene.nodes)[bcn := BlendColors],
              connections := old(scene.connections) + BlendEdgesOf(ik, fk, bind, bcn, attr, SwitchPlug(base)))
  {
    bcn := scene.CreateNode(BlendName(bind, attr), BlendColors);
    ConnectBlendNode(scene, ik, fk, bind, bcn, attr, SwitchPlug(base));
  }

  /** `AddBlendNode` for slot `(i, c)` extends a partial `blend_chains` result. */
  method BlendStep(scene: Scene, ghost s0: SceneState, base: string,
                   ik: seq<string>, fk: seq<string>, bind: seq<string>, bcns: seq<string>, i: nat, c: nat)
    returns (bcn: string)
    requires c < 3 && |bcns| == 3 * i + c && i < Min3(|ik|, |fk|, |bind|)
    requires scene.Valid()
    requires BlendBuilt(s0, scene.State(), base, ik, fk, bind, bcns)
    requires ik[i] in scene.nodes && fk[i] in scene.nodes && bind[i] in scene.nodes
    requires SettingsCtrlName(base) in scene.nodes
    modifies scene
    ensures scene.Valid()
    ensures BlendBuilt(s0, scene.State(), base, ik, fk, bind, bcns + [bcn])
  {
    ghost var s1 := scene.State();
    bcn := AddBlendNode(scene, base, ik[i], fk[i], bind[i], Channels[c]);
    BlendBuiltSnoc(s0, s1, scene.State(), base, ik, fk, bind, bcns, i, c, bcn);
  }

  /** The scene after `blend_chains` made the blend nodes `bcns`. */
  ghost function Blended(s: SceneState, base: string, ik: seq<string>, fk: seq<string>, bind: seq<string>, bcns: seq<string>): SceneState
    requires |bcns| <= 3 * Min3(|ik|, |fk|, |bind|)
  {
    s.(nodes := s.nodes + NodesOf(bcns, BlendColors),
       connections := s.connections + BlendEdges(ik, fk, bind, bcns, SwitchPlug(base)))
  }

  /** `blend_chains`: for every joint of the three zipped chains and every
      channel, a blendColors node takes color1 from the IK joint, color2
      from the FK joint and its blender from `{base}_settings_CTRL.fkIk`, and
      drives the bind joint's channel. */
  method BlendChains(scene: Scene, ghost k: set<string>, base: string, ik: seq<string>, fk: seq<string>, bind: seq<string>)
    returns (bcns: seq<string>)
    requires Extends(scene.State(), k)
    requires forall i :: 0 <= i < Min3(|ik|, |fk|, |bind|) ==>
               ik[i] in scene.nodes && fk[i] in scene.nodes && bind[i] in scene.nodes
    requires SettingsCtrlName(base) in scene.nodes
    modifies scene
    ensures Extends(scene.State(), k)
    ensures |bcns| == 3 * Min3(|ik|, |fk|, |bind|)
    ensures FreshNames(bcns, old(scene.nodes.Keys))
    ensures NamedAsRequested(old(scene.nodes.Keys), BlendRequests(bind, |bcns|), bcns)
    ensures scene.State() == Blended(old(scene.State()), base, ik, fk, bind, bcns)
  {
    ghost var s0 := scene.State();
    var n := Min3(|ik|, |fk|, |bind|);
    bcns := [];
    assert s0 == s0.(nodes := s0.nodes + NodesOf(bcns, BlendColors),
                     connections := s0.connections + BlendEdges(ik, fk, bind, bcns, SwitchPlug(base)));
    for i := 0 to n
      invariant |bcns| == 3 * i
      invariant scene.Valid()
      invariant BlendBuilt(s0, scene.State(), base, ik, fk, bind, bcns)
    {
      for c := 0 to 3
        invariant |bcns| == 3 * i + c
        invariant scene.Valid()
        invariant BlendBuilt(s0, scene.State(), base, ik, fk, bind, bcns)
      {
        var bcn := BlendStep(scene, s0, base, ik, fk, bind, bcns, i, c);
        bcns := bcns + [bcn];
      }
    }
    ExtendsKept(s0, scene.State(), k);
  }

  /** With three joints per chain the switch creates exactly nine blend
      nodes, and every (joint, channel) pair has its four connections. */
  lemma NineBlendNodes(ik: seq<string>, fk: seq<string>, bind: seq<string>, bcns: seq<string>, blender: Plug)
    requires |ik| == 3 && |fk| == 3 && |bind| == 3
    requires |bcns| == 3 * Min3(|ik|, |fk|, |bind|)
    requires Distinct(bcns)
    ensures |Elems(bcns)| == 9
    ensures forall i, c :: 0 <= i < 3 && 0 <= c < 3 ==>
              BlendEdgesOf(ik[i], fk[i], bind[i], bcns[3 * i + c], Channels[c], blender)
              <= BlendEdges(ik, fk, bind, bcns, blender)
  {
    DistinctCard(bcns);
    forall i, c | 0 <= i < 3 && 0 <= c < 3
      ensures BlendEdgesOf(ik[i], fk[i], bind[i], bcns[3 * i + c], Channels[c], blender)
              <= BlendEdges(ik, fk, bind, bcns, blender)
    {
      assert SlotOf(3 * i + c) == Slot(i, c);
      BlendEdgesContain(ik, fk, bind, bcns, blender, 3 * i + c);
    }
  }

  lemma {:induction false} DistinctCard<T>(s: seq<T>)
    requires Distinct(s)
    ensures |Elems(s)| == |s|
    decreases |s|
  {
    if s != [] {
      var n := |s| - 1;
      DistinctCard(s[..n]);
      assert Elems(s) == Elems(s[..n]) + {s[n]} by {
        assert s == s[..n] + [s[n]];
      }
      assert s[n] !in Elems(s[..n]);
    }
  }
}
