/** The optional stretch networks: the IK stretch that measures the distance
    from the base control to the local control and scales the two upper IK
    joints along the primary axis, and the FK stretch that gives every FK
    control but the last a `stretch` attribute. */
module Stretch {
  import opened Common
  import opened Names
  import opened SceneGraph
  import opened Axis

  /** The on/off switch of the IK stretch: in [0, 1], on by default. */
  const StretchSwitchRange: Range := Range(Some(0.0), Some(1.0), 1.0)

  /** A scale-like attribute: at least 0.001, no upper bound, 1 by default
      (the segment weights, the FK `stretch`, `globalScale`). */
  const PositiveRange: Range := Range(Some(0.001), None, 1.0)

  /** `p` holds the set value `x`. */
  ghost predicate HasValue(v: map<Plug, real>, p: Plug, x: real)
  {
    p in v && v[p] == x
  }

  /** All the connections into `node`. */
  function Into(conns: set<Connection>, node: string): (r: set<Connection>)
    ensures forall c :: c in r <==> c in conns && c.dst.node == node
  {
    set c | c in conns && c.dst.node == node
  }

  lemma IntoUnion(a: set<Connection>, b: set<Connection>, node: string)
    ensures Into(a + b, node) == Into(a, node) + Into(b, node)
  {
  }

  /** A node that is not in a well-formed scene has no connections. */
  lemma IntoAbsent(s: SceneState, node: string)
    requires WellFormed(s) && node !in s.nodes
    ensures Into(s.connections, node) == {}
  {
  }

  // ---------------------------------------------------------------------
  // add_ik_stretch
  // ---------------------------------------------------------------------

  /** The eight nodes `add_ik_stretch` makes, in the order it makes them. */
  datatype IkStretchNodes = IkStretchNodes(m: MeasureNodes, bta: string, upPma: string, loPma: string)

  /** The five measuring nodes, made first. */
  datatype MeasureNodes = MeasureNodes(dst: string, cnd: string, startLoc: string, endLoc: string, mdn: string)

  /** What `add_ik_stretch` hands back to the rest of the build. */
  datatype IkStretch = IkStretch(measureLocs: seq<string>, lengthTotal: real, mdn: string, cnd: string)

  /** What `add_ik_stretch` hands back: the two measuring locators, the
      rest length and the two nodes the global scale later feeds. */
  function Summary(n: IkStretchNodes, lengthTotal: real): IkStretch
  {
    IkStretch([n.m.startLoc, n.m.endLoc], lengthTotal, n.m.mdn, n.m.cnd)
  }

  function IkStretchNames(n: IkStretchNodes): seq<string>
  {
    [n.m.dst, n.m.cnd, n.m.startLoc, n.m.endLoc, n.m.mdn, n.bta, n.upPma, n.loPma]
  }

  /** The names asked for.  The two segment sums are named after the weight
      attributes alone, without the side. */
  function IkStretchRequests(base: string, part: string): seq<string>
  {
    MeasureRequests(base) + [StretchBtaName(base), PmaName(UpWeightName(part)), PmaName(LoWeightName(part))]
  }

  function MeasureRequests(base: string): seq<string>
  {
    [DistanceName(base), ConditionName(base), StartLocName(base), EndLocName(base), StretchMdnName(base)]
  }

  /** The measuring half: the locators' world matrices feed the distance,
      the distance is divided by the rest length and compared with it. */
  function MeasureEdges(m: MeasureNodes): set<Connection>
  {
    {Connection(Plug(m.startLoc, "worldMatrix[0]"), Plug(m.dst, "inMatrix1")),
     Connection(Plug(m.endLoc, "worldMatrix[0]"), Plug(m.dst, "inMatrix2")),
     Connection(Plug(m.dst, "distance"), Plug(m.mdn, "input1X")),
     Connection(Plug(m.dst, "distance"), Plug(m.cnd, "firstTerm")),
     Connection(Plug(m.mdn, "outputX"), Plug(m.cnd, "colorIfTrueR"))}
  }

  /** The switch: the ratio blended with 1 by the world control's `stretch`. */
  function SwitchEdges(n: IkStretchNodes, world: string): set<Connection>
  {
    {Connection(Plug(n.m.cnd, "outColorR"), Plug(n.bta, "input[1]")),
     Connection(Plug(world, "stretch"), Plug(n.bta, "attributesBlender"))}
  }

  /** The segments: weight plus blended ratio into each sum, each sum into
      the primary-axis scale (lettered `letter`) of its IK joint. */
  function SegmentEdges(n: IkStretchNodes, world: string, part: string, ik0: string, ik1: string, letter: char): set<Connection>
  {
    {Connection(Plug(world, UpWeightName(part)), Plug(n.upPma, "input1D[0]")),
     Connection(Plug(world, LoWeightName(part)), Plug(n.loPma, "input1D[0]")),
     Connection(Plug(n.bta, "output"), Plug(n.upPma, "input1D[1]")),
     Connection(Plug(n.bta, "output"), Plug(n.loPma, "input1D[1]")),
     Connection(Plug(n.upPma, "output1D"), AxisPlug(ik0, "scale", letter)),
     Connection(Plug(n.loPma, "output1D"), AxisPlug(ik1, "scale", letter))}
  }

  /** The scene after `add_ik_stretch` made the nodes `n`: the stage's
      connections, constants, constraints and attributes on top of the
      scene before it. */
  function IkStretchStep(s: SceneState, n: IkStretchNodes, world: string, baseCtrl: string, local: string, part: string,
                         ik0: string, ik1: string, letter: char, lt: real): SceneState
  {
    s.(nodes := s.nodes[n.m.dst := DistanceBetween][n.m.cnd := Condition][n.m.startLoc := Locator][n.m.endLoc := Locator]
                       [n.m.mdn := MultiplyDivide][n.bta := BlendTwoAttr][n.upPma := PlusMinusAverage][n.loPma := PlusMinusAverage],
       connections := s.connections + MeasureEdges(n.m) + SwitchEdges(n, world) + SegmentEdges(n, world, part, ik0, ik1, letter),
       attrs := s.attrs[Plug(world, "stretch") := StretchSwitchRange][Plug(world, UpWeightName(part)) := PositiveRange]
                       [Plug(world, LoWeightName(part)) := PositiveRange],
       values := s.values[Plug(n.m.mdn, "input2X") := lt][Plug(n.m.mdn, "operation") := 2.0]
                         [Plug(n.m.cnd, "secondTerm") := lt][Plug(n.m.cnd, "operation") := 3.0]
                         [Plug(n.bta, "input[0]") := 1.0]
                         [Plug(n.upPma, "input1D[2]") := -1.0][Plug(n.loPma, "input1D[2]") := -1.0],
       constraints := s.constraints + {Constraint(PointConstraint, baseCtrl, n.m.startLoc, false),
                                       Constraint(PointConstraint, local, n.m.endLoc, false)})
  }

  /** Eight distinct names none of which was in the scene. */
  ghost predicate IkStretchFresh(n: IkStretchNodes, before: set<string>)
  {
    FreshNames(IkStretchNames(n), before)
  }

  lemma IkStretchNamesDistinct(n: IkStretchNodes, before: set<string>)
    requires IkStretchFresh(n, before)
    ensures n.m.dst !in before && n.m.cnd !in before && n.m.startLoc !in before && n.m.endLoc !in before
    ensures n.m.mdn !in before && n.bta !in before && n.upPma !in before && n.loPma !in before
    ensures n.m.dst != n.m.cnd && n.m.dst != n.m.startLoc && n.m.dst != n.m.endLoc && n.m.dst != n.m.mdn
    ensures n.m.dst != n.bta && n.m.dst != n.upPma && n.m.dst != n.loPma
    ensures n.m.cnd != n.m.startLoc && n.m.cnd != n.m.endLoc && n.m.cnd != n.m.mdn && n.m.cnd != n.bta
    ensures n.m.cnd != n.upPma && n.m.cnd != n.loPma
    ensures n.m.startLoc != n.m.endLoc && n.m.startLoc != n.m.mdn && n.m.startLoc != n.bta
    ensures n.m.startLoc != n.upPma && n.m.startLoc != n.loPma
    ensures n.m.endLoc != n.m.mdn && n.m.endLoc != n.bta && n.m.endLoc != n.upPma && n.m.endLoc != n.loPma
    ensures n.m.mdn != n.bta && n.m.mdn != n.upPma && n.m.mdn != n.loPma
    ensures n.bta != n.upPma && n.bta != n.loPma && n.upPma != n.loPma
  {
    var q := IkStretchNames(n);
    assert q[0] == n.m.dst && q[1] == n.m.cnd && q[2] == n.m.startLoc && q[3] == n.m.endLoc;
    assert q[4] == n.m.mdn && q[5] == n.bta && q[6] == n.upPma && q[7] == n.loPma;
  }

  /** The weights are named `up<Part>` and `lo<Part>`, so they never clash
      with each other nor with `stretch`. */
  lemma WeightNamesDiffer(part: string)
    ensures UpWeightName(part) != LoWeightName(part)
    ensures UpWeightName(part) != "stretch" && LoWeightName(part) != "stretch"
  {
    assert UpWeightName(part)[0] == 'u' && LoWeightName(part)[0] == 'l';
  }

  /** The world control carries `stretch` in [0, 1] with default 1 and the
      two segment weights, each at least 0.001 with default 1; no other
      added attribute changes. */
  lemma IkStretchAttrs(s: SceneState, n: IkStretchNodes, world: string, baseCtrl: string, local: string, part: string,
                       ik0: string, ik1: string, letter: char, lt: real)
    ensures var t := IkStretchStep(s, n, world, baseCtrl, local, part, ik0, ik1, letter, lt);
      && t.attrs.Keys == s.attrs.Keys + {Plug(world, "stretch"), Plug(world, UpWeightName(part)), Plug(world, LoWeightName(part))}
      && t.attrs[Plug(world, "stretch")] == Range(Some(0.0), Some(1.0), 1.0)
      && t.attrs[Plug(world, UpWeightName(part))] == Range(Some(0.001), None, 1.0)
      && t.attrs[Plug(world, LoWeightName(part))] == Range(Some(0.001), None, 1.0)
      && forall p :: p in s.attrs && p.node != world ==> t.attrs[p] == s.attrs[p]
  {
    WeightNamesDiffer(part);
  }

  /** The connections into the nodes the stretch reads: exactly the ones
      listed.  Read with `IkStretchConstants`, the network computes
      distance = |end - start|, ratio = distance / lt, condition =
      (distance >= lt ? ratio : the never-set false colour), blended =
      1 * (1 - stretch) + condition * stretch, and for each segment
      weight + blended - 1. */
  ghost predicate IkStretchInto(conns: set<Connection>, n: IkStretchNodes, world: string, part: string)
  {
    && Into(conns, n.m.dst) == {Connection(Plug(n.m.startLoc, "worldMatrix[0]"), Plug(n.m.dst, "inMatrix1")),
                              Connection(Plug(n.m.endLoc, "worldMatrix[0]"), Plug(n.m.dst, "inMatrix2"))}
    && Into(conns, n.m.mdn) == {Connection(Plug(n.m.dst, "distance"), Plug(n.m.mdn, "input1X"))}
    && Into(conns, n.m.cnd) == {Connection(Plug(n.m.dst, "distance"), Plug(n.m.cnd, "firstTerm")),
                              Connection(Plug(n.m.mdn, "outputX"), Plug(n.m.cnd, "colorIfTrueR"))}
    && Into(conns, n.bta) == {Connection(Plug(n.m.cnd, "outColorR"), Plug(n.bta, "input[1]")),
                              Connection(Plug(world, "stretch"), Plug(n.bta, "attributesBlender"))}
    && Into(conns, n.upPma) == {Connection(Plug(world, UpWeightName(part)), Plug(n.upPma, "input1D[0]")),
                                Connection(Plug(n.bta, "output"), Plug(n.upPma, "input1D[1]"))}
    && Into(conns, n.loPma) == {Connection(Plug(world, LoWeightName(part)), Plug(n.loPma, "input1D[0]")),
                                Connection(Plug(n.bta, "output"), Plug(n.loPma, "input1D[1]"))}
  }

  /** The constant inputs of the stretch network: the rest length `lt` as
      divisor and as threshold, the divide (2) and greater-or-equal (3)
      operations, the constant 1 blended against, and the -1 of each
      segment sum.  The condition's false colour is never set. */
  ghost predicate IkStretchConstants(v: map<Plug, real>, n: IkStretchNodes, lt: real)
  {
    && HasValue(v, Plug(n.m.mdn, "input2X"), lt) && HasValue(v, Plug(n.m.mdn, "operation"), 2.0)
    && HasValue(v, Plug(n.m.cnd, "secondTerm"), lt) && HasValue(v, Plug(n.m.cnd, "operation"), 3.0)
    && Plug(n.m.cnd, "colorIfFalseR") !in v
    && HasValue(v, Plug(n.bta, "input[0]"), 1.0)
    && HasValue(v, Plug(n.upPma, "input1D[2]"), -1.0) && HasValue(v, Plug(n.loPma, "input1D[2]"), -1.0)
  }

  /** The measuring nodes take only their own wiring. */
  lemma MeasureInto(n: IkStretchNodes, world: string, part: string, ik0: string, ik1: string, letter: char, before: set<string>)
    requires IkStretchFresh(n, before) && world in before && ik0 in before && ik1 in before
    ensures var e := MeasureEdges(n.m) + SwitchEdges(n, world) + SegmentEdges(n, world, part, ik0, ik1, letter);
      && Into(e, n.m.dst) == {Connection(Plug(n.m.startLoc, "worldMatrix[0]"), Plug(n.m.dst, "inMatrix1")),
                            Connection(Plug(n.m.endLoc, "worldMatrix[0]"), Plug(n.m.dst, "inMatrix2"))}
      && Into(e, n.m.mdn) == {Connection(Plug(n.m.dst, "distance"), Plug(n.m.mdn, "input1X"))}
      && Into(e, n.m.cnd) == {Connection(Plug(n.m.dst, "distance"), Plug(n.m.cnd, "firstTerm")),
                            Connection(Plug(n.m.mdn, "outputX"), Plug(n.m.cnd, "colorIfTrueR"))}
  {
    IkStretchNamesDistinct(n, before);
  }

  /** The switch and segment nodes take only their own wiring. */
  lemma SegmentInto(n: IkStretchNodes, world: string, part: string, ik0: string, ik1: string, letter: char, before: set<string>)
    requires IkStretchFresh(n, before) && world in before && ik0 in before && ik1 in before
    ensures var e := MeasureEdges(n.m) + SwitchEdges(n, world) + SegmentEdges(n, world, part, ik0, ik1, letter);
      && Into(e, n.bta) == {Connection(Plug(n.m.cnd, "outColorR"), Plug(n.bta, "input[1]")),
                            Connection(Plug(world, "stretch"), Plug(n.bta, "attributesBlender"))}
      && Into(e, n.upPma) == {Connection(Plug(world, UpWeightName(part)), Plug(n.upPma, "input1D[0]")),
                              Connection(Plug(n.bta, "output"), Plug(n.upPma, "input1D[1]"))}
      && Into(e, n.loPma) == {Connection(Plug(world, LoWeightName(part)), Plug(n.loPma, "input1D[0]")),
                              Connection(Plug(n.bta, "output"), Plug(n.loPma, "input1D[1]"))}
  {
    IkStretchNamesDistinct(n, before);
  }

  /** Of the stage's connections, only the two segment sums reach the IK
      joints, each into the primary-axis scale of its own joint. */
  lemma JointsInto(n: IkStretchNodes, world: string, part: string, ik0: string, ik1: string, letter: char, before: set<string>)
    requires IkStretchFresh(n, before) && world in before && ik0 in before && ik1 in before && ik0 != ik1
    ensures var e := MeasureEdges(n.m) + SwitchEdges(n, world) + SegmentEdges(n, world, part, ik0, ik1, letter);
      && Into(e, ik0) == {Connection(Plug(n.upPma, "output1D"), AxisPlug(ik0, "scale", letter))}
      && Into(e, ik1) == {Connection(Plug(n.loPma, "output1D"), AxisPlug(ik1, "scale", letter))}
  {
    IkStretchNamesDistinct(n, before);
  }

  /** The constants the stage sets, on the values table alone. */
  lemma IkStretchValuesFacts(v: map<Plug, real>, n: IkStretchNodes, lt: real)
    requires Plug(n.m.cnd, "colorIfFalseR") !in v
    requires n.m.mdn != n.m.cnd && n.m.mdn != n.bta && n.m.mdn != n.upPma && n.m.mdn != n.loPma
    requires n.m.cnd != n.bta && n.m.cnd != n.upPma && n.m.cnd != n.loPma && n.bta != n.upPma && n.bta != n.loPma
    requires n.upPma != n.loPma
    ensures IkStretchConstants(v[Plug(n.m.mdn, "input2X") := lt][Plug(n.m.mdn, "operation") := 2.0]
                                [Plug(n.m.cnd, "secondTerm") := lt][Plug(n.m.cnd, "operation") := 3.0]
                                [Plug(n.bta, "input[0]") := 1.0]
                                [Plug(n.upPma, "input1D[2]") := -1.0][Plug(n.loPma, "input1D[2]") := -1.0], n, lt)
  {
  }

  /** No connection of a scene whose connections all end in `before` goes
      into a node outside it. */
  lemma IntoNone(c0: set<Connection>, before: set<string>, x: string)
    requires forall c :: c in c0 ==> c.dst.node in before
    requires x !in before
    ensures Into(c0, x) == {}
  {
  }

  /** The stage's connections on top of any connections among the nodes
      `before`. */
  lemma StretchEdgesInto(c0: set<Connection>, before: set<string>, n: IkStretchNodes, world: string, part: string,
                         ik0: string, ik1: string, letter: char)
    requires forall c :: c in c0 ==> c.dst.node in before
    requires IkStretchFresh(n, before) && world in before && ik0 in before && ik1 in before && ik0 != ik1
    ensures var c := c0 + MeasureEdges(n.m) + SwitchEdges(n, world) + SegmentEdges(n, world, part, ik0, ik1, letter);
      && IkStretchInto(c, n, world, part)
      && Into(c, ik0) == Into(c0, ik0) + {Connection(Plug(n.upPma, "output1D"), AxisPlug(ik0, "scale", letter))}
      && Into(c, ik1) == Into(c0, ik1) + {Connection(Plug(n.loPma, "output1D"), AxisPlug(ik1, "scale", letter))}
  {
    var e := MeasureEdges(n.m) + SwitchEdges(n, world) + SegmentEdges(n, world, part, ik0, ik1, letter);
    assert c0 + MeasureEdges(n.m) + SwitchEdges(n, world) + SegmentEdges(n, world, part, ik0, ik1, letter) == c0 + e;
    IkStretchNamesDistinct(n, before);
    MeasureInto(n, world, part, ik0, ik1, letter, before);
    SegmentInto(n, world, part, ik0, ik1, letter, before);
    JointsInto(n, world, part, ik0, ik1, letter, before);
    IntoUnion(c0, e, ik0);
    IntoUnion(c0, e, ik1);
    IntoUnion(c0, e, n.m.dst); IntoNone(c0, before, n.m.dst);
    IntoUnion(c0, e, n.m.mdn); IntoNone(c0, before, n.m.mdn);
    IntoUnion(c0, e, n.m.cnd); IntoNone(c0, before, n.m.cnd);
    IntoUnion(c0, e, n.bta); IntoNone(c0, before, n.bta);
    IntoUnion(c0, e, n.upPma); IntoNone(c0, before, n.upPma);
    IntoUnion(c0, e, n.loPma); IntoNone(c0, before, n.loPma);
  }

  /** What `add_ik_stretch` wires, node by node (`IkStretchInto`,
      `IkStretchConstants`): the new nodes take no input but their own, and
      the IK joints gain exactly one input each, on the primary-axis
      scale. */
  lemma IkStretchWiring(s: SceneState, n: IkStretchNodes, world: string, baseCtrl: string, local: string, part: string,
                        ik0: string, ik1: string, letter: char, lt: real)
    requires WellFormed(s)
    requires IkStretchFresh(n, s.nodes.Keys)
    requires world in s.nodes && ik0 in s.nodes && ik1 in s.nodes && ik0 != ik1
    ensures var t := IkStretchStep(s, n, world, baseCtrl, local, part, ik0, ik1, letter, lt);
      && IkStretchInto(t.connections, n, world, part)
      && IkStretchConstants(t.values, n, lt)
      && Into(t.connections, ik0) == Into(s.connections, ik0) + {Connection(Plug(n.upPma, "output1D"), AxisPlug(ik0, "scale", letter))}
      && Into(t.connections, ik1) == Into(s.connections, ik1) + {Connection(Plug(n.loPma, "output1D"), AxisPlug(ik1, "scale", letter))}
  {
    IkStretchNamesDistinct(n, s.nodes.Keys);
    IkStretchValuesFacts(s.values, n, lt);
    StretchEdgesInto(s.connections, s.nodes.Keys, n, world, part, ik0, ik1, letter);
  }

  /** The point constraints and the measuring connections and constants. */
  method WireMeasure(scene: Scene, m: MeasureNodes, baseCtrl: string, local: string, lt: real)
    requires scene.Valid()
    requires m.dst in scene.nodes && m.cnd in scene.nodes && m.startLoc in scene.nodes
    requires m.endLoc in scene.nodes && m.mdn in scene.nodes
    requires baseCtrl in scene.nodes && local in scene.nodes
    modifies scene
    ensures scene.Valid()
    ensures scene.State() == old(scene.State()).(
      constraints := old(scene.constraints) + {Constraint(PointConstraint, baseCtrl, m.startLoc, false),
                                               Constraint(PointConstraint, local, m.endLoc, false)},
      connections := old(scene.connections) + MeasureEdges(m),
      values := old(scene.values)[Plug(m.mdn, "input2X") := lt][Plug(m.mdn, "operation") := 2.0]
                                 [Plug(m.cnd, "secondTerm") := lt][Plug(m.cnd, "operation") := 3.0])
  {
    scene.Constrain(PointConstraint, baseCtrl, m.startLoc, false);
    scene.Constrain(PointConstraint, local, m.endLoc, false);
    scene.ConnectAttr(Plug(m.startLoc, "worldMatrix[0]"), Plug(m.dst, "inMatrix1"));
    scene.ConnectAttr(Plug(m.endLoc, "worldMatrix[0]"), Plug(m.dst, "inMatrix2"));
    scene.ConnectAttr(Plug(m.dst, "distance"), Plug(m.mdn, "input1X"));
    scene.SetAttr(Plug(m.mdn, "input2X"), lt);
    scene.SetAttr(Plug(m.mdn, "operation"), 2.0);
    scene.ConnectAttr(Plug(m.dst, "distance"), Plug(m.cnd, "firstTerm"));
    scene.ConnectAttr(Plug(m.mdn, "outputX"), Plug(m.cnd, "colorIfTrueR"));
    scene.SetAttr(Plug(m.cnd, "secondTerm"), lt);
    scene.SetAttr(Plug(m.cnd, "operation"), 3.0);
    SetAdd5(old(scene.connections), Connection(Plug(m.startLoc, "worldMatrix[0]"), Plug(m.dst, "inMatrix1")),
            Connection(Plug(m.endLoc, "worldMatrix[0]"), Plug(m.dst, "inMatrix2")),
            Connection(Plug(m.dst, "distance"), Plug(m.mdn, "input1X")),
            Connection(Plug(m.dst, "distance"), Plug(m.cnd, "firstTerm")),
            Connection(Plug(m.mdn, "outputX"), Plug(m.cnd, "colorIfTrueR")));
    assert scene.values == old(scene.values)[Plug(m.mdn, "input2X") := lt][Plug(m.mdn, "operation") := 2.0]
                                            [Plug(m.cnd, "secondTerm") := lt][Plug(m.cnd, "operation") := 3.0];
    SetAdd2(old(scene.constraints), Constraint(PointConstraint, baseCtrl, m.startLoc, false),
            Constraint(PointConstraint, local, m.endLoc, false));
  }

  /** `stretch` and the two segment weights on the world control. */
  method AddStretchAttrs(scene: Scene, world: string, part: string)
    requires scene.Valid()
    requires world in scene.nodes
    requires Plug(world, "stretch") !in scene.attrs
    requires Plug(world, UpWeightName(part)) !in scene.attrs && Plug(world, LoWeightName(part)) !in scene.attrs
    modifies scene
    ensures scene.Valid()
    ensures scene.nodes == old(scene.nodes)
    ensures scene.State() == old(scene.State()).(
      attrs := old(scene.attrs)[Plug(world, "stretch") := StretchSwitchRange][Plug(world, UpWeightName(part)) := PositiveRange]
                               [Plug(world, LoWeightName(part)) := PositiveRange])
  {
    WeightNamesDiffer(part);
    scene.AddAttr(Plug(world, "stretch"), StretchSwitchRange);
    scene.AddAttr(Plug(world, UpWeightName(part)), PositiveRange);
    scene.AddAttr(Plug(world, LoWeightName(part)), PositiveRange);
  }

  /** The blend node: 1 when `stretch` is off, the condition's output when
      it is on. */
  method MakeSwitch(scene: Scene, base: string, cnd: string, world: string) returns (bta: string)
    requires scene.Valid()
    requires cnd in scene.nodes && world in scene.nodes
    modifies scene
    ensures scene.Valid()
    ensures bta !in old(scene.nodes) && scene.nodes.Keys == old(scene.nodes.Keys) + {bta}
    ensures StretchBtaName(base) !in old(scene.nodes) ==> bta == StretchBtaName(base)
    ensures scene.State() == old(scene.State()).(
      nodes := old(scene.nodes)[bta := BlendTwoAttr],
      values := old(scene.values)[Plug(bta, "input[0]") := 1.0],
      connections := old(scene.connections) + {Connection(Plug(cnd, "outColorR"), Plug(bta, "input[1]")),
                                               Connection(Plug(world, "stretch"), Plug(bta, "attributesBlender"))})
  {
    bta := scene.CreateNode(StretchBtaName(base), BlendTwoAttr);
    scene.SetAttr(Plug(bta, "input[0]"), 1.0);
    scene.ConnectAttr(Plug(cnd, "outColorR"), Plug(bta, "input[1]"));
    scene.ConnectAttr(Plug(world, "stretch"), Plug(bta, "attributesBlender"));
    SetAdd2(old(scene.connections), Connection(Plug(cnd, "outColorR"), Plug(bta, "input[1]")),
            Connection(Plug(world, "stretch"), Plug(bta, "attributesBlender")));
  }

  /** The two segment sums and the IK joint scales they drive. */
  method WireSegments(scene: Scene, n: IkStretchNodes, world: string, part: string, ik0: string, ik1: string, letter: char)
    requires scene.Valid()
    requires n.bta in scene.nodes && n.upPma in scene.nodes && n.loPma in scene.nodes
    requires world in scene.nodes && ik0 in scene.nodes && ik1 in scene.nodes
    modifies scene
    ensures scene.Valid()
    ensures scene.State() == old(scene.State()).(
      connections := old(scene.connections) + SegmentEdges(n, world, part, ik0, ik1, letter),
      values := old(scene.values)[Plug(n.upPma, "input1D[2]") := -1.0][Plug(n.loPma, "input1D[2]") := -1.0])
  {
    scene.ConnectAttr(Plug(world, UpWeightName(part)), Plug(n.upPma, "input1D[0]"));
    scene.ConnectAttr(Plug(world, LoWeightName(part)), Plug(n.loPma, "input1D[0]"));
    scene.ConnectAttr(Plug(n.bta, "output"), Plug(n.upPma, "input1D[1]"));
    scene.ConnectAttr(Plug(n.bta, "output"), Plug(n.loPma, "input1D[1]"));
    scene.SetAttr(Plug(n.upPma, "input1D[2]"), -1.0);
    scene.SetAttr(Plug(n.loPma, "input1D[2]"), -1.0);
    scene.ConnectAttr(Plug(n.upPma, "output1D"), AxisPlug(ik0, "scale", letter));
    scene.ConnectAttr(Plug(n.loPma, "output1D"), AxisPlug(ik1, "scale", letter));
    SetAdd6(old(scene.connections), Connection(Plug(world, UpWeightName(part)), Plug(n.upPma, "input1D[0]")),
            Connection(Plug(world, LoWeightName(part)), Plug(n.loPma, "input1D[0]")),
            Connection(Plug(n.bta, "output"), Plug(n.upPma, "input1D[1]")),
            Connection(Plug(n.bta, "output"), Plug(n.loPma, "input1D[1]")),
            Connection(Plug(n.upPma, "output1D"), AxisPlug(ik0, "scale", letter)),
            Connection(Plug(n.loPma, "output1D"), AxisPlug(ik1, "scale", letter)));
  }

  /** The naming part of `AddIkStretch`: `t0` to `t8` are the node names
      before and after each of the eight nodes is made. */
  lemma IkStretchNamed(t0: set<string>, t1: set<string>, t2: set<string>, t3: set<string>, t4: set<string>,
                       t5: set<string>, t6: set<string>, t7: set<string>, t8: set<string>,
                       n: IkStretchNodes, base: string, part: string)
    requires t1 == t0 + {n.m.dst} && t2 == t1 + {n.m.cnd} && t3 == t2 + {n.m.startLoc} && t4 == t3 + {n.m.endLoc}
    requires t5 == t4 + {n.m.mdn} && t6 == t5 + {n.bta} && t7 == t6 + {n.upPma} && t8 == t7 + {n.loPma}
    requires n.m.dst !in t0 && n.m.cnd !in t1 && n.m.startLoc !in t2 && n.m.endLoc !in t3
    requires n.m.mdn !in t4 && n.bta !in t5 && n.upPma !in t6 && n.loPma !in t7
    requires DistanceName(base) !in t0 ==> n.m.dst == DistanceName(base)
    requires ConditionName(base) !in t1 ==> n.m.cnd == ConditionName(base)
    requires StartLocName(base) !in t2 ==> n.m.startLoc == StartLocName(base)
    requires EndLocName(base) !in t3 ==> n.m.endLoc == EndLocName(base)
    requires StretchMdnName(base) !in t4 ==> n.m.mdn == StretchMdnName(base)
    requires StretchBtaName(base) !in t5 ==> n.bta == StretchBtaName(base)
    requires PmaName(UpWeightName(part)) !in t6 ==> n.upPma == PmaName(UpWeightName(part))
    requires PmaName(LoWeightName(part)) !in t7 ==> n.loPma == PmaName(LoWeightName(part))
    ensures IkStretchFresh(n, t0)
    ensures FreshNames(IkStretchRequests(base, part), t0) ==> IkStretchNames(n) == IkStretchRequests(base, part)
  {
    var sets := [t0, t1, t2, t3, t4, t5, t6, t7, t8];
    var q := IkStretchRequests(base, part);
    StepwiseNames(sets, IkStretchNames(n), q);
    if FreshNames(q, t0) {
      AllFreeNamesKept(t0, q, IkStretchNames(n));
    }
  }

  /** The measuring half of `IkStretchStep`. */
  function MeasureStep(s: SceneState, m: MeasureNodes, baseCtrl: string, local: string, lt: real): SceneState
  {
    s.(nodes := s.nodes[m.dst := DistanceBetween][m.cnd := Condition][m.startLoc := Locator][m.endLoc := Locator]
                       [m.mdn := MultiplyDivide],
       connections := s.connections + MeasureEdges(m),
       values := s.values[Plug(m.mdn, "input2X") := lt][Plug(m.mdn, "operation") := 2.0]
                         [Plug(m.cnd, "secondTerm") := lt][Plug(m.cnd, "operation") := 3.0],
       constraints := s.constraints + {Constraint(PointConstraint, baseCtrl, m.startLoc, false),
                                       Constraint(PointConstraint, local, m.endLoc, false)})
  }

  /** The switching and scaling half of `IkStretchStep`. */
  function SegmentStep(s: SceneState, n: IkStretchNodes, world: string, part: string, ik0: string, ik1: string, letter: char): SceneState
  {
    s.(nodes := s.nodes[n.bta := BlendTwoAttr][n.upPma := PlusMinusAverage][n.loPma := PlusMinusAverage],
       connections := s.connections + SwitchEdges(n, world) + SegmentEdges(n, world, part, ik0, ik1, letter),
       attrs := s.attrs[Plug(world, "stretch") := StretchSwitchRange][Plug(world, UpWeightName(part)) := PositiveRange]
                       [Plug(world, LoWeightName(part)) := PositiveRange],
       values := s.values[Plug(n.bta, "input[0]") := 1.0]
                         [Plug(n.upPma, "input1D[2]") := -1.0][Plug(n.loPma, "input1D[2]") := -1.0])
  }

  lemma IkStretchStepSplit(s: SceneState, m: MeasureNodes, n: IkStretchNodes, world: string, baseCtrl: string, local: string,
                           part: string, ik0: string, ik1: string, letter: char, lt: real)
    requires n.m == m
    ensures IkStretchStep(s, n, world, baseCtrl, local, part, ik0, ik1, letter, lt)
         == SegmentStep(MeasureStep(s, m, baseCtrl, local, lt), n, world, part, ik0, ik1, letter)
  {
  }

  /** The five measuring nodes.  `t1` to `t4` are the node names after
      each of the first four is made. */
  method MakeMeasureNodes(scene: Scene, base: string)
    returns (m: MeasureNodes, ghost t1: set<string>, ghost t2: set<string>, ghost t3: set<string>, ghost t4: set<string>)
    requires scene.Valid()
    modifies scene
    ensures scene.Valid()
    ensures t1 == old(scene.nodes.Keys) + {m.dst} && m.dst !in old(scene.nodes)
    ensures DistanceName(base) !in old(scene.nodes) ==> m.dst == DistanceName(base)
    ensures t2 == t1 + {m.cnd} && m.cnd !in t1 && (ConditionName(base) !in t1 ==> m.cnd == ConditionName(base))
    ensures t3 == t2 + {m.startLoc} && m.startLoc !in t2 && (StartLocName(base) !in t2 ==> m.startLoc == StartLocName(base))
    ensures t4 == t3 + {m.endLoc} && m.endLoc !in t3 && (EndLocName(base) !in t3 ==> m.endLoc == EndLocName(base))
    ensures scene.nodes.Keys == t4 + {m.mdn} && m.mdn !in t4 && (StretchMdnName(base) !in t4 ==> m.mdn == StretchMdnName(base))
    ensures scene.State() == old(scene.State()).(
      nodes := old(scene.nodes)[m.dst := DistanceBetween][m.cnd := Condition][m.startLoc := Locator][m.endLoc := Locator]
                               [m.mdn := MultiplyDivide])
  {
    var dst := scene.CreateNode(DistanceName(base), DistanceBetween);
    t1 := scene.nodes.Keys;
    var cnd := scene.CreateNode(ConditionName(base), Condition);
    t2 := scene.nodes.Keys;
    var startLoc := scene.CreateNode(StartLocName(base), Locator);
    t3 := scene.nodes.Keys;
    var endLoc := scene.CreateNode(EndLocName(base), Locator);
    t4 := scene.nodes.Keys;
    var mdn := scene.CreateNode(StretchMdnName(base), MultiplyDivide);
    m := MeasureNodes(dst, cnd, startLoc, endLoc, mdn);
  }

  /** The two segment sums.  `t7` is the node names after the first. */
  method MakeSums(scene: Scene, part: string) returns (upPma: string, loPma: string, ghost t7: set<string>)
    requires scene.Valid()
    modifies scene
    ensures scene.Valid()
    ensures t7 == old(scene.nodes.Keys) + {upPma} && upPma !in old(scene.nodes)
    ensures PmaName(UpWeightName(part)) !in old(scene.nodes) ==> upPma == PmaName(UpWeightName(part))
    ensures scene.nodes.Keys == t7 + {loPma} && loPma !in t7
    ensures PmaName(LoWeightName(part)) !in t7 ==> loPma == PmaName(LoWeightName(part))
    ensures scene.State() == old(scene.State()).(
      nodes := old(scene.nodes)[upPma := PlusMinusAverage][loPma := PlusMinusAverage])
  {
    upPma := scene.CreateNode(PmaName(UpWeightName(part)), PlusMinusAverage);
    t7 := scene.nodes.Keys;
    loPma := scene.CreateNode(PmaName(LoWeightName(part)), PlusMinusAverage);
  }

  /** The two segment sums and their wiring, after the blend node `bta`. */
  method BuildSums(scene: Scene, part: string, m: MeasureNodes, bta: string, world: string,
                   ik0: string, ik1: string, letter: char)
    returns (n: IkStretchNodes, ghost t7: set<string>)
    requires scene.Valid()
    requires bta in scene.nodes && world in scene.nodes && ik0 in scene.nodes && ik1 in scene.nodes
    modifies scene
    ensures scene.Valid()
    ensures n.m == m && n.bta == bta
    ensures t7 == old(scene.nodes.Keys) + {n.upPma} && n.upPma !in old(scene.nodes)
    ensures PmaName(UpWeightName(part)) !in old(scene.nodes) ==> n.upPma == PmaName(UpWeightName(part))
    ensures scene.nodes.Keys == t7 + {n.loPma} && n.loPma !in t7
    ensures PmaName(LoWeightName(part)) !in t7 ==> n.loPma == PmaName(LoWeightName(part))
    ensures scene.State() == old(scene.State()).(
      nodes := old(scene.nodes)[n.upPma := PlusMinusAverage][n.loPma := PlusMinusAverage],
      connections := old(scene.connections) + SegmentEdges(n, world, part, ik0, ik1, letter),
      values := old(scene.values)[Plug(n.upPma, "input1D[2]") := -1.0][Plug(n.loPma, "input1D[2]") := -1.0])
  {
    var upPma, loPma;
    upPma, loPma, t7 := MakeSums(scene, part);
    n := IkStretchNodes(m, bta, upPma, loPma);
    WireSegments(scene, n, world, part, ik0, ik1, letter);
  }

  /** The measuring half: its nodes, then their wiring. */
  method BuildMeasure(scene: Scene, base: string, baseCtrl: string, local: string, lt: real)
    returns (m: MeasureNodes, ghost t1: set<string>, ghost t2: set<string>, ghost t3: set<string>, ghost t4: set<string>,
             ghost t5: set<string>)
    requires scene.Valid()
    requires baseCtrl in scene.nodes && local in scene.nodes
    modifies scene
    ensures scene.Valid()
    ensures t1 == old(scene.nodes.Keys) + {m.dst} && m.dst !in old(scene.nodes)
    ensures DistanceName(base) !in old(scene.nodes) ==> m.dst == DistanceName(base)
    ensures t2 == t1 + {m.cnd} && m.cnd !in t1 && (ConditionName(base) !in t1 ==> m.cnd == ConditionName(base))
    ensures t3 == t2 + {m.startLoc} && m.startLoc !in t2 && (StartLocName(base) !in t2 ==> m.startLoc == StartLocName(base))
    ensures t4 == t3 + {m.endLoc} && m.endLoc !in t3 && (EndLocName(base) !in t3 ==> m.endLoc == EndLocName(base))
    ensures t5 == t4 + {m.mdn} && m.mdn !in t4 && (StretchMdnName(base) !in t4 ==> m.mdn == StretchMdnName(base))
    ensures scene.nodes.Keys == t5
    ensures scene.State() == MeasureStep(old(scene.State()), m, baseCtrl, local, lt)
  {
    m, t1, t2, t3, t4 := MakeMeasureNodes(scene, base);
    t5 := scene.nodes.Keys;
    WireMeasure(scene, m, baseCtrl, local, lt);
  }

  /** The switching half: the attributes on the world control, the blend
      node and the two segment sums, then their wiring. */
  method BuildSegments(scene: Scene, base: string, part: string, m: MeasureNodes, world: string,
                       ik0: string, ik1: string, letter: char)
    returns (n: IkStretchNodes, ghost t6: set<string>, ghost t7: set<string>)
    requires scene.Valid()
    requires m.cnd in scene.nodes && world in scene.nodes && ik0 in scene.nodes && ik1 in scene.nodes
    requires Plug(world, "stretch") !in scene.attrs
    requires Plug(world, UpWeightName(part)) !in scene.attrs && Plug(world, LoWeightName(part)) !in scene.attrs
    modifies scene
    ensures scene.Valid()
    ensures n.m == m
    ensures t6 == old(scene.nodes.Keys) + {n.bta} && n.bta !in old(scene.nodes)
    ensures StretchBtaName(base) !in old(scene.nodes) ==> n.bta == StretchBtaName(base)
    ensures t7 == t6 + {n.upPma} && n.upPma !in t6 && (PmaName(UpWeightName(part)) !in t6 ==> n.upPma == PmaName(UpWeightName(part)))
    ensures scene.nodes.Keys == t7 + {n.loPma} && n.loPma !in t7
    ensures PmaName(LoWeightName(part)) !in t7 ==> n.loPma == PmaName(LoWeightName(part))
    ensures scene.State() == SegmentStep(old(scene.State()), n, world, part, ik0, ik1, letter)
  {
    AddStretchAttrs(scene, world, part);
    var bta := MakeSwitch(scene, base, m.cnd, world);
    t6 := scene.nodes.Keys;
    n, t7 := BuildSums(scene, part, m, bta, world, ik0, ik1, letter);
  }

  /** `add_ik_stretch`: measures the limb from the base control to the local
      control and scales the two upper IK joints along the primary axis
      (the last character of `primaryAxis`) once it is pulled past its
      rest length `lengthA + lengthB`.  The two lengths are measured in the
      scene and are inputs here. */
  method AddIkStretch(scene: Scene, ghost k: set<string>, base: string, part: string, ik: seq<string>,
                      baseCtrl: string, local: string, world: string, primaryAxis: string, lengthA: real, lengthB: real)
    returns (r: IkStretch, ghost n: IkStretchNodes)
    requires Extends(scene.State(), k)
    requires |ik| >= 2 && ik[0] in scene.nodes && ik[1] in scene.nodes
    requires baseCtrl in scene.nodes && local in scene.nodes && world in scene.nodes
    requires primaryAxis != []
    requires Plug(world, "stretch") !in scene.attrs
    requires Plug(world, UpWeightName(part)) !in scene.attrs && Plug(world, LoWeightName(part)) !in scene.attrs
    modifies scene
    ensures Extends(scene.State(), k)
    ensures r == Summary(n, r.lengthTotal) && r.lengthTotal == lengthA + lengthB
    ensures IkStretchFresh(n, old(scene.nodes.Keys))
    ensures FreshNames(IkStretchRequests(base, part), old(scene.nodes.Keys)) ==> IkStretchNames(n) == IkStretchRequests(base, part)
    ensures scene.State() == IkStretchStep(old(scene.State()), n, world, baseCtrl, local, part, ik[0], ik[1],
                                           LastChar(primaryAxis), r.lengthTotal)
  {
    var lengthTotal := lengthA + lengthB;
    ghost var s0 := scene.State();
    var m, t1, t2, t3, t4, t5 := BuildMeasure(scene, base, baseCtrl, local, lengthTotal);
    var made, t6, t7 := BuildSegments(scene, base, part, m, world, ik[0], ik[1], LastChar(primaryAxis));
    n := made;
    IkStretchNamed(s0.nodes.Keys, t1, t2, t3, t4, t5, t6, t7, scene.nodes.Keys, n, base, part);
    IkStretchStepSplit(s0, m, n, world, baseCtrl, local, part, ik[0], ik[1], LastChar(primaryAxis), lengthTotal);
    r := Summary(made, lengthTotal);
    ExtendsKept(s0, scene.State(), k);
  }

  // ---------------------------------------------------------------------
  // add_fk_stretch
  // ---------------------------------------------------------------------

  /** The nodes one pass of `add_fk_stretch` makes: the multiplier, the
      offset locator and, when the next control has no
      `offsetParentMatrix`, the decomposeMatrix node. */
  datatype FkStretchLink = FkStretchLink(mdl: string, loc: string, dcm: Option<string>)

  function DcmNames(dcm: Option<string>): seq<string>
  {
    if dcm.Some? then [dcm.value] else []
  }

  /** The names one pass made, in order. */
  function LinkNames(l: FkStretchLink): seq<string>
  {
    [l.mdl, l.loc] + DcmNames(l.dcm)
  }

  /** The names one pass asked for: the control's name with `CTRL` replaced,
      the next FK joint's name with `JNT` replaced, and the locator's own
      name followed by `_DCM`. */
  function LinkRequests(ctrl: string, nextJoint: string, l: FkStretchLink): seq<string>
  {
    [FkStretchMdlName(ctrl), OffsetLocName(nextJoint)] + (if l.dcm.Some? then [DcmName(l.loc)] else [])
  }

  /** The control's `stretch` scales the multiplier's second input, which
      moves the offset locator along the primary axis, and scales the FK
      joint along that axis. */
  function StretchEdges(ctrl: string, joint: string, mdl: string, loc: string, letter: char): set<Connection>
  {
    {Connection(Plug(ctrl, "stretch"), Plug(mdl, "input2")),
     Connection(Plug(mdl, "output"), AxisPlug(loc, "translate", letter)),
     Connection(Plug(ctrl, "stretch"), AxisPlug(joint, "scale", letter))}
  }

  /** How the locator's matrix reaches the next control `next`: straight
      into its `offsetParentMatrix`, or decomposed into the translate,
      rotate and scale of the group named `{next}_OFF_GRP`. */
  function OffsetEdges(loc: string, next: string, dcm: Option<string>): set<Connection>
  {
    match dcm
    case None => {Connection(Plug(loc, "matrix"), Plug(next, "offsetParentMatrix"))}
    case Some(d) =>
      {Connection(Plug(loc, "matrix"), Plug(d, "inputMatrix")),
       Connection(Plug(d, "outputTranslate"), Plug(OffsetName(next), "translate")),
       Connection(Plug(d, "outputRotate"), Plug(OffsetName(next), "rotate")),
       Connection(Plug(d, "outputScale"), Plug(OffsetName(next), "scale"))}
  }

  /** One pass of `add_fk_stretch` for the control `ctrl` of FK joint
      `joint`, followed by the control `next`: the control gains `stretch`,
      the multiplier holds the locator's rest offset `offset` along the
      primary axis, and the locator hangs under the joint. */
  function FkStretchStep(s: SceneState, ctrl: string, joint: string, next: string, l: FkStretchLink, letter: char,
                         offset: real): SceneState
  {
    s.(nodes := if l.dcm.Some? then s.nodes[l.mdl := MultDoubleLinear][l.loc := Locator][l.dcm.value := DecomposeMatrix]
                else s.nodes[l.mdl := MultDoubleLinear][l.loc := Locator],
       parent := s.parent[l.loc := joint],
       attrs := s.attrs[Plug(ctrl, "stretch") := PositiveRange],
       values := s.values[Plug(l.mdl, "input1") := offset],
       connections := s.connections + StretchEdges(ctrl, joint, l.mdl, l.loc, letter) + OffsetEdges(l.loc, next, l.dcm))
  }

  /** The loop's test: a control is stretched unless its name is the last
      control's name. */
  predicate Stretched(ctrls: seq<string>, i: nat)
    requires i < |ctrls|
  {
    ctrls[i] != ctrls[|ctrls| - 1]
  }

  /** With distinct control names, exactly the controls before the last
      one are stretched. */
  lemma StretchedAllButLast(ctrls: seq<string>, i: nat)
    requires Distinct(ctrls) && i < |ctrls|
    ensures Stretched(ctrls, i) <==> i < |ctrls| - 1
  {
  }

  /** Whether the first `|links|` passes of the loop stretched their
      control, and with which nodes. */
  ghost predicate LinksFollowTest(ctrls: seq<string>, links: seq<Option<FkStretchLink>>, opm: bool)
  {
    && |links| <= |ctrls|
    && (forall i :: 0 <= i < |links| ==> (links[i].Some? <==> Stretched(ctrls, i)))
    && (forall i :: 0 <= i < |links| && links[i].Some? ==> (links[i].value.dcm.None? <==> opm))
  }

  lemma LinksFollowTestSnoc(ctrls: seq<string>, links: seq<Option<FkStretchLink>>, opm: bool, x: Option<FkStretchLink>)
    requires LinksFollowTest(ctrls, links, opm) && |links| < |ctrls|
    requires x.Some? <==> Stretched(ctrls, |links|)
    requires x.Some? ==> (x.value.dcm.None? <==> opm)
    ensures LinksFollowTest(ctrls, links + [x], opm)
  {
  }

  /** The scene after the first `|links|` passes of the loop. */
  ghost function FkStretches(s0: SceneState, ctrls: seq<string>, fk: seq<string>, letter: char, offsets: seq<real>,
                             links: seq<Option<FkStretchLink>>): SceneState
    requires |links| <= |ctrls| <= |fk| && |ctrls| <= |offsets|
    decreases |links|
  {
    if links == [] then s0
    else
      var i := |links| - 1;
      var prev := FkStretches(s0, ctrls, fk, letter, offsets, links[..i]);
      if links[i].Some? && i + 1 < |ctrls| then FkStretchStep(prev, ctrls[i], fk[i], ctrls[i + 1], links[i].value, letter, offsets[i])
      else prev
  }

  lemma FkStretchesSnoc(s0: SceneState, ctrls: seq<string>, fk: seq<string>, letter: char, offsets: seq<real>,
                        links: seq<Option<FkStretchLink>>, x: Option<FkStretchLink>)
    requires |links| < |ctrls| <= |fk| && |ctrls| <= |offsets|
    ensures var i := |links|;
      FkStretches(s0, ctrls, fk, letter, offsets, links + [x])
        == if x.Some? && i + 1 < |ctrls| then FkStretchStep(FkStretches(s0, ctrls, fk, letter, offsets, links), ctrls[i], fk[i], ctrls[i + 1], x.value, letter, offsets[i])
           else FkStretches(s0, ctrls, fk, letter, offsets, links)
  {
    assert (links + [x])[..|links|] == links;
  }

  /** All the names the first `|links|` passes made, in order. */
  function FkStretchNames(links: seq<Option<FkStretchLink>>): seq<string>
    decreases |links|
  {
    if links == [] then []
    else
      var i := |links| - 1;
      FkStretchNames(links[..i]) + (if links[i].Some? then LinkNames(links[i].value) else [])
  }

  /** All the names the first `|links|` passes asked for, in order. */
  function FkStretchRequests(ctrls: seq<string>, fk: seq<string>, links: seq<Option<FkStretchLink>>): seq<string>
    requires |links| <= |ctrls| <= |fk|
    decreases |links|
  {
    if links == [] then []
    else
      var i := |links| - 1;
      FkStretchRequests(ctrls, fk, links[..i])
        + (if links[i].Some? && i + 1 < |fk| then LinkRequests(ctrls[i], fk[i + 1], links[i].value) else [])
  }

  lemma FkStretchNamesSnoc(links: seq<Option<FkStretchLink>>, x: Option<FkStretchLink>)
    ensures FkStretchNames(links + [x]) == FkStretchNames(links) + (if x.Some? then LinkNames(x.value) else [])
  {
    assert (links + [x])[..|links|] == links;
  }

  lemma FkStretchRequestsSnoc(ctrls: seq<string>, fk: seq<string>, links: seq<Option<FkStretchLink>>, x: Option<FkStretchLink>)
    requires |links| < |ctrls| <= |fk|
    ensures FkStretchRequests(ctrls, fk, links + [x])
         == FkStretchRequests(ctrls, fk, links)
              + (if x.Some? && |links| + 1 < |fk| then LinkRequests(ctrls[|links|], fk[|links| + 1], x.value) else [])
  {
    var ls := links + [x];
    assert ls[..|links|] == links;
    assert ls[|ls| - 1] == x;
  }

  /** The `stretch` attribute, the multiplier and the offset locator, which
      hangs under the FK joint. */
  method MakeStretchNodes(scene: Scene, ghost k: set<string>, ctrl: string, joint: string, nextJoint: string,
                          ghost before: set<string>, ghost requests: seq<string>, ghost names: seq<string>)
    returns (mdl: string, loc: string)
    requires Extends(scene.State(), k)
    requires ctrl in scene.nodes && joint in scene.nodes && joint !in k
    requires Plug(ctrl, "stretch") !in scene.attrs
    requires scene.nodes.Keys == before + Elems(names)
    requires FreshNames(names, before) && NamedAsRequested(before, requests, names)
    modifies scene
    ensures Extends(scene.State(), k)
    ensures scene.nodes.Keys == before + Elems(names + [mdl] + [loc])
    ensures FreshNames(names + [mdl] + [loc], before)
    ensures NamedAsRequested(before, requests + [FkStretchMdlName(ctrl)] + [OffsetLocName(nextJoint)], names + [mdl] + [loc])
    ensures mdl !in old(scene.nodes) && loc !in old(scene.nodes) && mdl != loc
    ensures scene.State() == old(scene.State()).(nodes := old(scene.nodes)[mdl := MultDoubleLinear][loc := Locator],
                                                 parent := old(scene.parent)[loc := joint],
                                                 attrs := old(scene.attrs)[Plug(ctrl, "stretch") := PositiveRange])
  {
    scene.AddAttr(Plug(ctrl, "stretch"), PositiveRange);
    mdl := CreateInOrder(scene, FkStretchMdlName(ctrl), MultDoubleLinear, before, requests, names);
    loc := CreateInOrder(scene, OffsetLocName(nextJoint), Locator, before, requests + [FkStretchMdlName(ctrl)], names + [mdl]);
    assert loc !in k;
    RootedInUpdate(scene.parent, k, loc, joint);
    scene.Parent(loc, joint);
  }

  /** The multiplier's rest offset and the three stretch connections. */
  method WireStretch(scene: Scene, ctrl: string, joint: string, mdl: string, loc: string, letter: char, offset: real)
    requires scene.Valid()
    requires ctrl in scene.nodes && joint in scene.nodes && mdl in scene.nodes && loc in scene.nodes
    modifies scene
    ensures scene.Valid()
    ensures scene.State() == old(scene.State()).(values := old(scene.values)[Plug(mdl, "input1") := offset],
                                                 connections := old(scene.connections) + StretchEdges(ctrl, joint, mdl, loc, letter))
  {
    scene.SetAttr(Plug(mdl, "input1"), offset);
    scene.ConnectAttr(Plug(ctrl, "stretch"), Plug(mdl, "input2"));
    scene.ConnectAttr(Plug(mdl, "output"), AxisPlug(loc, "translate", letter));
    scene.ConnectAttr(Plug(ctrl, "stretch"), AxisPlug(joint, "scale", letter));
    SetAdd3(old(scene.connections), Connection(Plug(ctrl, "stretch"), Plug(mdl, "input2")),
            Connection(Plug(mdl, "output"), AxisPlug(loc, "translate", letter)),
            Connection(Plug(ctrl, "stretch"), AxisPlug(joint, "scale", letter)));
  }

  /** The branch on whether the next control has an `offsetParentMatrix`
      (`opm`, which depends on the Maya version). */
  method DriveNext(scene: Scene, loc: string, next: string, opm: bool,
                   ghost before: set<string>, ghost requests: seq<string>, ghost names: seq<string>)
    returns (dcm: Option<string>)
    requires scene.Valid()
    requires loc in scene.nodes
    requires opm ==> next in scene.nodes
    requires !opm ==> OffsetName(next) in scene.nodes
    requires scene.nodes.Keys == before + Elems(names)
    requires FreshNames(names, before) && NamedAsRequested(before, requests, names)
    modifies scene
    ensures scene.Valid()
    ensures dcm.None? <==> opm
    ensures dcm.Some? ==> dcm.value !in old(scene.nodes)
    ensures scene.nodes.Keys == before + Elems(names + DcmNames(dcm))
    ensures FreshNames(names + DcmNames(dcm), before)
    ensures NamedAsRequested(before, requests + (if dcm.Some? then [DcmName(loc)] else []), names + DcmNames(dcm))
    ensures scene.State() == old(scene.State()).(
      nodes := if dcm.Some? then old(scene.nodes)[dcm.value := DecomposeMatrix] else old(scene.nodes),
      connections := old(scene.connections) + OffsetEdges(loc, next, dcm))
  {
    if opm {
      scene.ConnectAttr(Plug(loc, "matrix"), Plug(next, "offsetParentMatrix"));
      dcm := None;
      assert names + DcmNames(dcm) == names;
      assert requests + [] == requests;
    } else {
      var d := CreateInOrder(scene, DcmName(loc), DecomposeMatrix, before, requests, names);
      scene.ConnectAttr(Plug(loc, "matrix"), Plug(d, "inputMatrix"));
      scene.ConnectAttr(Plug(d, "outputTranslate"), Plug(OffsetName(next), "translate"));
      scene.ConnectAttr(Plug(d, "outputRotate"), Plug(OffsetName(next), "rotate"));
      scene.ConnectAttr(Plug(d, "outputScale"), Plug(OffsetName(next), "scale"));
      dcm := Some(d);
      SetAdd4(old(scene.connections), Connection(Plug(loc, "matrix"), Plug(d, "inputMatrix")),
              Connection(Plug(d, "outputTranslate"), Plug(OffsetName(next), "translate")),
              Connection(Plug(d, "outputRotate"), Plug(OffsetName(next), "rotate")),
              Connection(Plug(d, "outputScale"), Plug(OffsetName(next), "scale")));
    }
  }

  /** One pass of the `add_fk_stretch` loop, for a control that is not the
      last one. */
  method AddFkStretchLink(scene: Scene, ghost k: set<string>, ctrl: string, joint: string, nextJoint: string, next: string,
                          letter: char, offset: real, opm: bool,
                          ghost before: set<string>, ghost requests: seq<string>, ghost names: seq<string>)
    returns (l: FkStretchLink)
    requires Extends(scene.State(), k)
    requires ctrl in scene.nodes && joint in scene.nodes && joint !in k
    requires opm ==> next in scene.nodes
    requires !opm ==> OffsetName(next) in scene.nodes
    requires Plug(ctrl, "stretch") !in scene.attrs
    requires scene.nodes.Keys == before + Elems(names)
    requires FreshNames(names, before) && NamedAsRequested(before, requests, names)
    modifies scene
    ensures Extends(scene.State(), k)
    ensures l.dcm.None? <==> opm
    ensures scene.nodes.Keys == before + Elems(names + LinkNames(l))
    ensures FreshNames(names + LinkNames(l), before)
    ensures NamedAsRequested(before, requests + LinkRequests(ctrl, nextJoint, l), names + LinkNames(l))
    ensures scene.attrs == old(scene.attrs)[Plug(ctrl, "stretch") := PositiveRange]
    ensures scene.State() == FkStretchStep(old(scene.State()), ctrl, joint, next, l, letter, offset)
  {
    var mdl, loc := MakeStretchNodes(scene, k, ctrl, joint, nextJoint, before, requests, names);
    ghost var s1 := scene.State();
    WireStretch(scene, ctrl, joint, mdl, loc, letter, offset);
    ghost var mid := requests + [FkStretchMdlName(ctrl)] + [OffsetLocName(nextJoint)];
    var dcm := DriveNext(scene, loc, next, opm, before, mid, names + [mdl] + [loc]);
    l := FkStretchLink(mdl, loc, dcm);
    Append2(names, mdl, loc, DcmNames(dcm));
    Append2(requests, FkStretchMdlName(ctrl), OffsetLocName(nextJoint), if dcm.Some? then [DcmName(loc)] else []);
    ExtendsKept(s1, scene.State(), k);
  }

  /** `add_fk_stretch`: every FK control but the last gets a `stretch`
      attribute that scales its joint along the primary axis and pushes the
      next control's offset out by the same factor.  `offsets[i]` is the
      rest distance from joint `i` to joint `i + 1` along the primary axis,
      which the source reads back from the scene after snapping the
      locator; `opm` says whether the controls have an
      `offsetParentMatrix`. */
  method AddFkStretch(scene: Scene, ghost k: set<string>, ctrls: seq<string>, fk: seq<string>, primaryAxis: string,
                      offsets: seq<real>, opm: bool)
    returns (ghost links: seq<Option<FkStretchLink>>)
    requires Extends(scene.State(), k)
    requires |ctrls| <= |fk| && |ctrls| <= |offsets| && primaryAxis != []
    requires Distinct(ctrls)
    requires forall i :: 0 <= i < |ctrls| ==> ctrls[i] in scene.nodes && Plug(ctrls[i], "stretch") !in scene.attrs
    requires forall i :: 0 <= i < |ctrls| ==> fk[i] in scene.nodes && fk[i] !in k
    requires !opm ==> forall i :: 0 <= i < |ctrls| ==> OffsetName(ctrls[i]) in scene.nodes
    modifies scene
    ensures Extends(scene.State(), k)
    ensures |links| == |ctrls| && LinksFollowTest(ctrls, links, opm)
    ensures scene.nodes.Keys == old(scene.nodes.Keys) + Elems(FkStretchNames(links))
    ensures FreshNames(FkStretchNames(links), old(scene.nodes.Keys))
    ensures NamedAsRequested(old(scene.nodes.Keys), FkStretchRequests(ctrls, fk, links), FkStretchNames(links))
    ensures scene.State() == FkStretches(old(scene.State()), ctrls, fk, LastChar(primaryAxis), offsets, links)
  {
    ghost var s0 := scene.State();
    ghost var before := scene.nodes.Keys;
    links := [];
    for i := 0 to |ctrls|
      invariant |links| == i
      invariant Extends(scene.State(), k)
      invariant LinksFollowTest(ctrls, links, opm)
      invariant before <= scene.nodes.Keys
      invariant scene.nodes.Keys == before + Elems(FkStretchNames(links))
      invariant FreshNames(FkStretchNames(links), before)
      invariant NamedAsRequested(before, FkStretchRequests(ctrls, fk, links), FkStretchNames(links))
      invariant forall j :: i <= j < |ctrls| ==> Plug(ctrls[j], "stretch") !in scene.attrs
      invariant scene.State() == FkStretches(s0, ctrls, fk, LastChar(primaryAxis), offsets, links)
    {
      FkStretchesSnoc(s0, ctrls, fk, LastChar(primaryAxis), offsets, links, None);
      if ctrls[i] != ctrls[|ctrls| - 1] {
        var l := AddFkStretchLink(scene, k, ctrls[i], fk[i], fk[i + 1], ctrls[i + 1], LastChar(primaryAxis), offsets[i], opm,
                                  before, FkStretchRequests(ctrls, fk, links), FkStretchNames(links));
        FkStretchesSnoc(s0, ctrls, fk, LastChar(primaryAxis), offsets, links, Some(l));
        FkStretchNamesSnoc(links, Some(l));
        FkStretchRequestsSnoc(ctrls, fk, links, Some(l));
        LinksFollowTestSnoc(ctrls, links, opm, Some(l));
        links := links + [Some(l)];
      } else {
        FkStretchNamesSnoc(links, None);
        FkStretchRequestsSnoc(ctrls, fk, links, None);
        LinksFollowTestSnoc(ctrls, links, opm, None);
        assert FkStretchNames(links + [None]) == FkStretchNames(links);
        assert FkStretchRequests(ctrls, fk, links + [None]) == FkStretchRequests(ctrls, fk, links);
        links := links + [None];
      }
    }
  }

  /** What one stretched link leaves in the scene `t`. */
  ghost predicate Wired(t: SceneState, ctrl: string, joint: string, next: string, l: FkStretchLink, letter: char, offset: real)
  {
    && l.mdl in t.nodes && t.nodes[l.mdl] == MultDoubleLinear
    && l.loc in t.nodes && t.nodes[l.loc] == Locator
    && (l.dcm.Some? ==> l.dcm.value in t.nodes && t.nodes[l.dcm.value] == DecomposeMatrix)
    && l.loc in t.parent && t.parent[l.loc] == joint
    && Plug(ctrl, "stretch") in t.attrs && t.attrs[Plug(ctrl, "stretch")] == PositiveRange
    && Plug(l.mdl, "input1") in t.values && t.values[Plug(l.mdl, "input1")] == offset
    && StretchEdges(ctrl, joint, l.mdl, l.loc, letter) <= t.connections
    && OffsetEdges(l.loc, next, l.dcm) <= t.connections
  }

  /** The names of link `i` are among all the names made. */
  lemma {:induction false} LinkNamesIn(links: seq<Option<FkStretchLink>>, i: nat)
    requires i < |links| && links[i].Some?
    ensures Elems(LinkNames(links[i].value)) <= Elems(FkStretchNames(links))
    decreases |links|
  {
    var n := |links| - 1;
    var tail := if links[n].Some? then LinkNames(links[n].value) else [];
    assert FkStretchNames(links) == FkStretchNames(links[..n]) + tail;
    if i < n {
      LinkNamesIn(links[..n], i);
    }
  }

  /** A pass leaves its own link wired. */
  lemma WiredStep(s: SceneState, ctrl: string, joint: string, next: string, l: FkStretchLink, letter: char, offset: real)
    requires Distinct(LinkNames(l))
    ensures Wired(FkStretchStep(s, ctrl, joint, next, l, letter, offset), ctrl, joint, next, l, letter, offset)
  {
    assert l.mdl == LinkNames(l)[0] && l.loc == LinkNames(l)[1];
    assert l.dcm.Some? ==> l.dcm.value == LinkNames(l)[2];
  }

  /** A pass for another control, with nodes of its own, leaves a wired
      link wired. */
  lemma WiredKept(s: SceneState, ctrl: string, joint: string, next: string, l: FkStretchLink, letter: char, offset: real,
                  ctrl2: string, joint2: string, next2: string, x: FkStretchLink, offset2: real)
    requires Wired(s, ctrl, joint, next, l, letter, offset)
    requires ctrl2 != ctrl && Elems(LinkNames(l)) !! Elems(LinkNames(x))
    ensures Wired(FkStretchStep(s, ctrl2, joint2, next2, x, letter, offset2), ctrl, joint, next, l, letter, offset)
  {
    assert l.mdl in Elems(LinkNames(l)) && l.loc in Elems(LinkNames(l));
    assert x.mdl in Elems(LinkNames(x)) && x.loc in Elems(LinkNames(x));
    assert l.dcm.Some? ==> l.dcm.value in Elems(LinkNames(l));
    assert x.dcm.Some? ==> x.dcm.value in Elems(LinkNames(x));
  }

  /** Every stretched control keeps, in the finished scene, its attribute,
      its multiplier holding the rest offset, its locator under its joint
      and all of its connections: later passes touch only their own, fresh,
      nodes and their own control. */
  lemma {:induction false} FkStretchesWired(s0: SceneState, ctrls: seq<string>, fk: seq<string>, letter: char,
                                            offsets: seq<real>, links: seq<Option<FkStretchLink>>, i: nat)
    requires |links| <= |ctrls| <= |fk| && |ctrls| <= |offsets|
    requires Distinct(ctrls) && Distinct(FkStretchNames(links))
    requires i < |links| && links[i].Some? && i + 1 < |ctrls|
    ensures Wired(FkStretches(s0, ctrls, fk, letter, offsets, links), ctrls[i], fk[i], ctrls[i + 1], links[i].value, letter, offsets[i])
    decreases |links|
  {
    var n := |links| - 1;
    var pre := links[..n];
    var tail := if links[n].Some? then LinkNames(links[n].value) else [];
    assert FkStretchNames(links) == FkStretchNames(pre) + tail;
    DistinctConcat(FkStretchNames(pre), tail);
    var prev := FkStretches(s0, ctrls, fk, letter, offsets, pre);
    var fin := FkStretches(s0, ctrls, fk, letter, offsets, links);
    assert links == pre + [links[n]];
    FkStretchesSnoc(s0, ctrls, fk, letter, offsets, pre, links[n]);
    if i == n {
      assert fin == FkStretchStep(prev, ctrls[n], fk[n], ctrls[n + 1], links[n].value, letter, offsets[n]);
      WiredStep(prev, ctrls[i], fk[i], ctrls[i + 1], links[i].value, letter, offsets[i]);
    } else {
      FkStretchesWired(s0, ctrls, fk, letter, offsets, pre, i);
      assert pre[i] == links[i];
      if links[n].Some? && n + 1 < |ctrls| {
        LinkNamesIn(pre, i);
        assert ctrls[n] != ctrls[i];
        assert Elems(LinkNames(links[i].value)) !! Elems(tail);
        assert fin == FkStretchStep(prev, ctrls[n], fk[n], ctrls[n + 1], links[n].value, letter, offsets[n]);
        WiredKept(prev, ctrls[i], fk[i], ctrls[i + 1], links[i].value, letter, offsets[i],
                  ctrls[n], fk[n], ctrls[n + 1], links[n].value, offsets[n]);
      } else {
        assert fin == prev;
      }
    }
  }

  /** The `stretch` attributes the first `|links|` passes added. */
  function StretchPlugs(ctrls: seq<string>, links: seq<Option<FkStretchLink>>): set<Plug>
    requires |links| <= |ctrls|
    decreases |links|
  {
    if links == [] then {}
    else
      var n := |links| - 1;
      StretchPlugs(ctrls, links[..n]) + (if links[n].Some? && n + 1 < |ctrls| then {Plug(ctrls[n], "stretch")} else {})
  }

  /** The loop adds exactly the `stretch` attributes of the stretched
      controls and no other attribute. */
  lemma {:induction false} FkStretchesAttrs(s0: SceneState, ctrls: seq<string>, fk: seq<string>, letter: char,
                                            offsets: seq<real>, links: seq<Option<FkStretchLink>>)
    requires |links| <= |ctrls| <= |fk| && |ctrls| <= |offsets|
    ensures FkStretches(s0, ctrls, fk, letter, offsets, links).attrs.Keys == s0.attrs.Keys + StretchPlugs(ctrls, links)
    decreases |links|
  {
    if links != [] {
      FkStretchesAttrs(s0, ctrls, fk, letter, offsets, links[..|links| - 1]);
    }
  }

  /** The last control is never given a `stretch` attribute: the test
      `ctrl != fk_ctrls[-1]` leaves it out. */
  lemma {:induction false} LastControlNotStretched(ctrls: seq<string>, links: seq<Option<FkStretchLink>>, opm: bool)
    requires LinksFollowTest(ctrls, links, opm) && ctrls != []
    ensures Plug(ctrls[|ctrls| - 1], "stretch") !in StretchPlugs(ctrls, links)
    decreases |links|
  {
    if links != [] {
      var n := |links| - 1;
      assert LinksFollowTest(ctrls, links[..n], opm);
      LastControlNotStretched(ctrls, links[..n], opm);
    }
  }

  /** With distinct control names every control but the last is given a
      `stretch` attribute. */
  lemma {:induction false} AllButLastStretched(ctrls: seq<string>, links: seq<Option<FkStretchLink>>, opm: bool, i: nat)
    requires LinksFollowTest(ctrls, links, opm) && Distinct(ctrls)
    requires i + 1 < |ctrls| && i < |links|
    ensures links[i].Some?
    ensures Plug(ctrls[i], "stretch") in StretchPlugs(ctrls, links)
    decreases |links|
  {
    StretchedAllButLast(ctrls, i);
    var n := |links| - 1;
    if i < n {
      assert LinksFollowTest(ctrls, links[..n], opm);
      AllButLastStretched(ctrls, links[..n], opm, i);
    }
  }
}
