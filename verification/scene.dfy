/** The Maya scene as the build sees it: a table of named nodes with a DAG
    parent map, attribute connections, added attributes, set values, locks,
    hidden nodes, `controlType` tags, colour overrides and constraints.  Each
    `cmds` call the build issues is one method of `Scene` that updates the
    table in place. */
module SceneGraph {
  import opened Common

  /** The node kinds the build creates.  An IK handle remembers the joints it
      spans and a cluster handle the curve point it deforms. */
  datatype NodeType =
    | Transform          // a node that already existed (guides, other rigs)
    | Joint
    | Curve
    | Locator
    | Group
    | IkHandle(startJoint: string, endEffector: string)
    | Cluster
    | ClusterHandle(curve: string, cv: nat)
    | BlendColors
    | DistanceBetween
    | Condition
    | MultiplyDivide
    | BlendTwoAttr
    | PlusMinusAverage
    | MultDoubleLinear
    | DecomposeMatrix
    | Reverse

  /** `node.attr` */
  datatype Plug = Plug(node: string, attr: string)

  /** The channel `channel` + `letter` of a node, such as `rotateX`. */
  function AxisPlug(node: string, channel: string, letter: char): Plug
  {
    Plug(node, channel + [letter])
  }

  /** The X, Y and Z channels of a compound attribute such as `scale`. */
  function XyzPlugs(node: string, channel: string): set<Plug>
  {
    {AxisPlug(node, channel, 'X'), AxisPlug(node, channel, 'Y'), AxisPlug(node, channel, 'Z')}
  }

  /** The translate, rotate and scale channels of a node. */
  function TrsPlugs(n: string): set<Plug>
  {
    XyzPlugs(n, "translate") + XyzPlugs(n, "rotate") + XyzPlugs(n, "scale")
  }

  /** `connectAttr src dst` */
  datatype Connection = Connection(src: Plug, dst: Plug)

  /** A numeric attribute added with `addAttr`: optional bounds and a default. */
  datatype Range = Range(min: Option<real>, max: Option<real>, default: real)

  datatype RGB = RGB(r: real, g: real, b: real)

  datatype ConstraintKind = PointConstraint | ParentConstraint | PoleVectorConstraint

  datatype Constraint = Constraint(kind: ConstraintKind, driver: string, driven: string, maintainOffset: bool)

  /** A snapshot of every table of the scene. */
  datatype SceneState = SceneState(
    nodes: map<string, NodeType>,
    parent: map<string, string>,
    connections: set<Connection>,
    attrs: map<Plug, Range>,
    tags: map<string, string>,
    values: map<Plug, real>,
    frozen: map<Plug, real>,
    locked: set<Plug>,
    hidden: set<string>,
    colors: map<string, RGB>,
    constraints: set<Constraint>)
  {
    // One function per table edit a command makes; the methods of `Scene`
    // are specified by these.

    function WithNode(n: string, t: NodeType): SceneState { this.(nodes := nodes[n := t]) }
    function WithParent(child: string, p: string): SceneState { this.(parent := parent[child := p]) }
    function WithParents(children: seq<string>, p: string): SceneState { this.(parent := parent + ParentsOf(children, p)) }
    function WithConnection(src: Plug, dst: Plug): SceneState { this.(connections := connections + {Connection(src, dst)}) }
    function WithAttr(p: Plug, range: Range): SceneState { this.(attrs := attrs[p := range]) }
    function WithValue(p: Plug, v: real): SceneState { this.(values := values[p := v]) }
    function WithXyz(n: string, channel: string, v: real): (t: SceneState)
      ensures forall p :: p in XyzPlugs(n, channel) ==> p in t.values && t.values[p] == v
      ensures forall p :: p in values && p !in XyzPlugs(n, channel) ==> p in t.values && t.values[p] == values[p]
    {
      this.(values := values[AxisPlug(n, channel, 'X') := v][AxisPlug(n, channel, 'Y') := v][AxisPlug(n, channel, 'Z') := v])
    }
    function WithLock(p: Plug): SceneState { this.(locked := locked + {p}) }
    function WithHidden(n: string): SceneState { this.(hidden := hidden + {n}) }
    function WithTag(n: string, tag: string): SceneState { this.(tags := tags[n := tag]) }
    function WithColor(n: string, c: RGB): SceneState { this.(colors := colors[n := c]) }
    function WithConstraint(kind: ConstraintKind, driver: string, driven: string, maintainOffset: bool): SceneState
    {
      this.(constraints := constraints + {Constraint(kind, driver, driven, maintainOffset)})
    }
    /** `makeIdentity -apply`: the values of the given channels are baked into
        the node and the channels go back to their defaults. */
    function WithIdentity(plugs: set<Plug>): (t: SceneState)
      ensures forall p :: p in t.values ==> p in values && p !in plugs
      ensures forall p :: p in values && p !in plugs ==> p in t.values && t.values[p] == values[p]
      ensures forall p :: p in plugs && p in values ==> p in t.frozen && t.frozen[p] == values[p]
      ensures forall p :: p in frozen && p !in plugs ==> p in t.frozen && t.frozen[p] == frozen[p]
    {
      this.(values := values - plugs, frozen := frozen + map p | p in plugs && p in values :: values[p])
    }

    /** The scene with the nodes `d` removed together with everything that
        mentions them. */
    function Without(d: set<string>): SceneState
    {
      SceneState(
        nodes - d,
        (map n | n in parent && n !in d && parent[n] !in d :: parent[n]),
        (set c | c in connections && c.src.node !in d && c.dst.node !in d),
        map p | p in attrs && p.node !in d :: attrs[p],
        tags - d,
        map p | p in values && p.node !in d :: values[p],
        map p | p in frozen && p.node !in d :: frozen[p],
        (set p | p in locked && p.node !in d),
        hidden - d,
        colors - d,
        (set c | c in constraints && c.driver !in d && c.driven !in d))
    }
  }

  /** Every parent link, connection, set value and every added attribute
      or tag belongs to nodes of the scene. */
  ghost predicate WellFormed(s: SceneState)
  {
    && s.parent.Keys <= s.nodes.Keys
    && (forall n :: n in s.parent ==> s.parent[n] in s.nodes)
    && (forall c :: c in s.connections ==> c.src.node in s.nodes && c.dst.node in s.nodes)
    && (forall p :: p in s.values ==> p.node in s.nodes)
    && (forall p :: p in s.attrs ==> p.node in s.nodes)
    && s.tags.Keys <= s.nodes.Keys
  }

  /** A scene reached from one whose nodes were `k`, by a build that never
      hangs its own nodes below those. */
  ghost predicate Extends(s: SceneState, k: set<string>)
  {
    && WellFormed(s)
    && k <= s.nodes.Keys
    && RootedIn(s.parent, k)
  }

  /** A stage that only adds nodes and leaves the hierarchy alone keeps the
      scene an extension of the original one. */
  lemma ExtendsKept(s0: SceneState, s: SceneState, k: set<string>)
    requires Extends(s0, k) && WellFormed(s)
    requires s0.nodes.Keys <= s.nodes.Keys && s.parent == s0.parent
    ensures Extends(s, k)
  {
  }

  /** No node outside `k` hangs below a node of `k`: the nodes a build adds
      are never parented under the nodes that were there before it. */
  ghost predicate RootedIn(parent: map<string, string>, k: set<string>)
  {
    forall n :: n in parent && n !in k ==> parent[n] !in k
  }

  lemma RootedInUpdate(parent: map<string, string>, k: set<string>, child: string, p: string)
    requires RootedIn(parent, k)
    requires child !in k && p !in k
    ensures RootedIn(parent[child := p], k)
  {
  }

  /** `n` is one of `targets` or lies below one of them, following at most
      `fuel` parent links. */
  function AncestorIn(parent: map<string, string>, n: string, targets: set<string>, fuel: nat): bool
    decreases fuel
  {
    n in targets || (fuel > 0 && n in parent && AncestorIn(parent, parent[n], targets, fuel - 1))
  }

  /** What `delete targets` removes: the targets and all their DAG descendants.
      A parent chain in a scene of `|nodes|` nodes has fewer than `|nodes|`
      links, so that many steps reach every ancestor. */
  function Doomed(s: SceneState, targets: set<string>): set<string>
  {
    set n | n in s.nodes && AncestorIn(s.parent, n, targets, |s.nodes|)
  }

  /** The scene after `delete targets`. */
  function Deleted(s: SceneState, targets: set<string>): (r: SceneState)
    ensures WellFormed(s) ==> WellFormed(r)
    ensures r == s.Without(Doomed(s, targets))
  {
    WithoutWellFormed(s, Doomed(s, targets));
    s.Without(Doomed(s, targets))
  }

  /** A node outside `k` never lies below a target inside `k`. */
  lemma {:induction false} OutsideNotBelow(parent: map<string, string>, k: set<string>, n: string, targets: set<string>, fuel: nat)
    requires RootedIn(parent, k)
    requires targets <= k
    requires n !in k
    ensures !AncestorIn(parent, n, targets, fuel)
    decreases fuel
  {
    if fuel > 0 && n in parent {
      OutsideNotBelow(parent, k, parent[n], targets, fuel - 1);
    }
  }

  /** Deleting nodes that were there before the build removes none of the
      nodes the build added. */
  lemma OutsideSurvives(s: SceneState, k: set<string>, targets: set<string>)
    requires RootedIn(s.parent, k)
    requires targets <= k
    ensures Doomed(s, targets) <= k
  {
    forall n | n in Doomed(s, targets)
      ensures n in k
    {
      if n !in k {
        OutsideNotBelow(s.parent, k, n, targets, |s.nodes|);
      }
    }
  }

  function NodesOf(names: seq<string>, t: NodeType): map<string, NodeType>
  {
    map n | n in names :: t
  }

  function ParentsOf(children: seq<string>, p: string): map<string, string>
  {
    map c | c in children :: p
  }

  function TagsOf(names: seq<string>, tag: string): map<string, string>
  {
    map n | n in names :: tag
  }

  /** The maps above, built one name at a time. */
  lemma ByNameLast(names: seq<string>, t: NodeType, tag: string)
    requires names != []
    ensures var n := |names| - 1;
      && NodesOf(names, t) == NodesOf(names[..n], t)[names[n] := t]
      && TagsOf(names, tag) == TagsOf(names[..n], tag)[names[n] := tag]
  {
    var n := |names| - 1;
    assert names == names[..n] + [names[n]];
  }

  lemma NodesOfSnoc(names: seq<string>, n: string, t: NodeType)
    ensures NodesOf(names + [n], t) == NodesOf(names, t)[n := t]
  {
  }

  lemma ParentsOfSnoc(children: seq<string>, c: string, p: string)
    ensures ParentsOf(children + [c], p) == ParentsOf(children, p)[c := p]
  {
  }

  /** Removing nodes with everything that mentions them leaves a well-formed scene. */
  lemma WithoutWellFormed(s: SceneState, d: set<string>)
    ensures WellFormed(s) ==> WellFormed(s.Without(d))
  {
  }

  class Scene {
    var nodes: map<string, NodeType>
    var parent: map<string, string>
    var connections: set<Connection>
    var attrs: map<Plug, Range>
    var tags: map<string, string>
    var values: map<Plug, real>
    var frozen: map<Plug, real>
    var locked: set<Plug>
    var hidden: set<string>
    var colors: map<string, RGB>
    var constraints: set<Constraint>

    ghost function State(): SceneState
      reads this
    {
      SceneState(nodes, parent, connections, attrs, tags, values, frozen, locked, hidden, colors, constraints)
    }

    ghost predicate Valid()
      reads this
    {
      WellFormed(State())
    }

    /** A scene holding the given nodes and nothing else. */
    constructor (existing: map<string, NodeType>)
      ensures Valid()
      ensures State() == SceneState(existing, map[], {}, map[], map[], map[], map[], {}, {}, map[], {})
    {
      nodes, parent, connections := existing, map[], {};
      attrs, tags, values, frozen := map[], map[], map[], map[];
      locked, hidden, colors, constraints := {}, {}, map[], {};
    }

    /** Any node-creating command (`createNode`, `joint`, `circle`, `curve`,
        `spaceLocator`, `group`, `ikHandle`, `cluster`).  Maya never reuses a
        name: a name already taken is changed to a fresh one, and the command
        returns the name actually used.  The new node has no parent. */
    method CreateNode(requested: string, t: NodeType) returns (name: string)
      requires Valid()
      modifies this
      ensures Valid()
      ensures name !in old(nodes)
      ensures requested in nodes
      ensures requested !in old(nodes) ==> name == requested
      ensures nodes.Keys == old(nodes.Keys) + {name}
      ensures State() == old(State()).WithNode(name, t)
    {
      name := requested;
      if name in nodes {
        name := name + "1";
        while name in nodes
          decreases set k | k in nodes && |k| >= |name|
        {
          ghost var before := set k | k in nodes && |k| >= |name|;
          name := name + "1";
          assert (set k | k in nodes && |k| >= |name|) < before by {
            assert name[..|name| - 1] in before;
          }
        }
      }
      nodes := nodes[name := t];
    }

    /** `parent child newParent` */
    method Parent(child: string, newParent: string)
      requires Valid()
      requires child in nodes && newParent in nodes
      modifies this
      ensures Valid()
      ensures State() == old(State()).WithParent(child, newParent)
    {
      parent := parent[child := newParent];
    }

    /** `parent c1 c2 ... newParent` */
    method ParentAll(children: seq<string>, newParent: string)
      requires Valid()
      requires forall i :: 0 <= i < |children| ==> children[i] in nodes
      requires newParent in nodes
      modifies this
      ensures Valid()
      ensures State() == old(State()).WithParents(children, newParent)
    {
      parent := parent + ParentsOf(children, newParent);
    }

    /** `connectAttr src dst` */
    method ConnectAttr(src: Plug, dst: Plug)
      requires Valid()
      requires src.node in nodes && dst.node in nodes
      modifies this
      ensures Valid()
      ensures State() == old(State()).WithConnection(src, dst)
    {
      connections := connections + {Connection(src, dst)};
    }

    /** `addAttr -longName attr`: fails in Maya when the attribute exists. */
    method AddAttr(p: Plug, range: Range)
      requires Valid()
      requires p.node in nodes && p !in attrs
      modifies this
      ensures Valid()
      ensures State() == old(State()).WithAttr(p, range)
    {
      attrs := attrs[p := range];
    }

    /** `setAttr plug value` */
    method SetAttr(p: Plug, v: real)
      requires Valid()
      requires p.node in nodes
      modifies this
      ensures Valid()
      ensures State() == old(State()).WithValue(p, v)
    {
      values := values[p := v];
    }

    /** `setAttr node.channel v v v` on a compound channel such as `scale`. */
    method SetXyz(n: string, channel: string, v: real)
      requires Valid()
      requires n in nodes
      modifies this
      ensures Valid()
      ensures State() == old(State()).WithXyz(n, channel, v)
    {
      values := values[AxisPlug(n, channel, 'X') := v][AxisPlug(n, channel, 'Y') := v][AxisPlug(n, channel, 'Z') := v];
    }

    /** `makeIdentity -apply` */
    method MakeIdentity(plugs: set<Plug>)
      requires Valid()
      modifies this
      ensures Valid()
      ensures State() == old(State()).WithIdentity(plugs)
    {
      frozen := frozen + map p | p in plugs && p in values :: values[p];
      values := values - plugs;
    }

    /** `setAttr -lock true -keyable false plug` */
    method Lock(p: Plug)
      requires Valid()
      requires p.node in nodes
      modifies this
      ensures Valid()
      ensures State() == old(State()).WithLock(p)
    {
      locked := locked + {p};
    }

    /** `hide node` */
    method Hide(n: string)
      requires Valid()
      requires n in nodes
      modifies this
      ensures Valid()
      ensures State() == old(State()).WithHidden(n)
    {
      hidden := hidden + {n};
    }

    /** `addAttr -ln controlType -dt string` followed by `setAttr` of the tag:
        fails in Maya when the node already carries a tag. */
    method AddTag(n: string, tag: string)
      requires Valid()
      requires n in nodes && n !in tags
      modifies this
      ensures Valid()
      ensures State() == old(State()).WithTag(n, tag)
    {
      tags := tags[n := tag];
    }

    /** `overrideEnabled`, `overrideRGBColors` and `overrideColorRGB` set together. */
    method SetColor(n: string, c: RGB)
      requires Valid()
      requires n in nodes
      modifies this
      ensures Valid()
      ensures State() == old(State()).WithColor(n, c)
    {
      colors := colors[n := c];
    }

    /** `pointConstraint`, `parentConstraint`, `poleVectorConstraint` */
    method Constrain(kind: ConstraintKind, driver: string, driven: string, maintainOffset: bool)
      requires Valid()
      requires driver in nodes && driven in nodes
      modifies this
      ensures Valid()
      ensures State() == old(State()).WithConstraint(kind, driver, driven, maintainOffset)
    {
      constraints := constraints + {Constraint(kind, driver, driven, maintainOffset)};
    }

    /** `delete targets`: the targets and everything below them go, with all
        that mentions them. */
    method Delete(targets: seq<string>)
      requires Valid()
      requires forall i :: 0 <= i < |targets| ==> targets[i] in nodes
      modifies this
      ensures Valid()
      ensures State() == Deleted(old(State()), Elems(targets))
    {
      var s0 := SceneState(nodes, parent, connections, attrs, tags, values, frozen, locked, hidden, colors, constraints);
      assert WellFormed(s0);
      var s := Deleted(s0, Elems(targets));
      assert WellFormed(s);
      nodes, parent, connections, attrs := s.nodes, s.parent, s.connections, s.attrs;
      tags, values, frozen, locked := s.tags, s.values, s.frozen, s.locked;
      hidden, colors, constraints := s.hidden, s.colors, s.constraints;
      assert State() == s;
    }
  }

  /** `CreateNode` inside a stage that makes several nodes: `names` are the
      nodes the stage has made so far, asked for as `requests`, on top of
      the nodes `before` it started with. */
  method CreateInOrder(scene: Scene, requested: string, t: NodeType,
                       ghost before: set<string>, ghost requests: seq<string>, ghost names: seq<string>)
    returns (name: string)
    requires scene.Valid()
    requires scene.nodes.Keys == before + Elems(names)
    requires FreshNames(names, before) && NamedAsRequested(before, requests, names)
    modifies scene
    ensures scene.Valid()
    ensures scene.nodes.Keys == before + Elems(names + [name])
    ensures FreshNames(names + [name], before) && NamedAsRequested(before, requests + [requested], names + [name])
    ensures requested in scene.nodes && name !in old(scene.nodes)
    ensures scene.State() == old(scene.State()).WithNode(name, t)
  {
    name := scene.CreateNode(requested, t);
    NamedAsRequestedSnoc(before, requests, names, requested, name);
    ElemsSnoc(names, name);
  }
}
