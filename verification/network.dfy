/** What the utility nodes the build wires compute, over the reals, and the
    quantities the stretch, global-scale and visibility networks produce. */
module Network {

  /** blendColors: `color1 * blender + color2 * (1 - blender)`. */
  function BlendColors(color1: real, color2: real, blender: real): real
  {
    color1 * blender + color2 * (1.0 - blender)
  }

  /** condition with operation 3, "greater or equal". */
  function ConditionGreaterOrEqual(firstTerm: real, secondTerm: real, ifTrue: real, ifFalse: real): real
  {
    if firstTerm >= secondTerm then ifTrue else ifFalse
  }

  /** multiplyDivide with operation 2, "divide". */
  function Divide(input1: real, input2: real): real
    requires input2 != 0.0
  {
    input1 / input2
  }

  /** blendTwoAttr over two inputs: `input[0] * (1 - b) + input[1] * b`. */
  function BlendTwoAttr(input0: real, input1: real, blender: real): real
  {
    input0 * (1.0 - blender) + input1 * blender
  }

  /** plusMinusAverage in its default "sum" operation over three inputs. */
  function Sum3(a: real, b: real, c: real): real
  {
    a + b + c
  }

  /** multDoubleLinear */
  function MultDoubleLinear(input1: real, input2: real): real
  {
    input1 * input2
  }

  /** reverse */
  function Reverse(input: real): real
  {
    1.0 - input
  }

  lemma MulNonNegative(a: real, b: real)
    requires a >= 0.0 && b >= 0.0
    ensures a * b >= 0.0
  {
  }

  /** The blend node of a bind channel with the switch at its ends: `fkIk`
      1 follows the IK joint, 0 the FK joint, and values between stay
      between the two. */
  lemma BlendFollowsSwitch(ik: real, fk: real, fkIk: real)
    requires 0.0 <= fkIk <= 1.0
    ensures fkIk == 1.0 ==> BlendColors(ik, fk, fkIk) == ik
    ensures fkIk == 0.0 ==> BlendColors(ik, fk, fkIk) == fk
    ensures ik <= fk ==> ik <= BlendColors(ik, fk, fkIk) <= fk
    ensures fk <= ik ==> fk <= BlendColors(ik, fk, fkIk) <= ik
  {
    var b := BlendColors(ik, fk, fkIk);
    assert b - ik == (fk - ik) * (1.0 - fkIk);
    assert fk - b == (fk - ik) * fkIk;
    if ik <= fk {
      MulNonNegative(fk - ik, 1.0 - fkIk);
      MulNonNegative(fk - ik, fkIk);
    } else {
      MulNonNegative(ik - fk, 1.0 - fkIk);
      MulNonNegative(ik - fk, fkIk);
    }
  }

  /** The length of the IK chain at rest, scaled by the rig's global scale:
      what the globalScale multDoubleLinear feeds to the divisor and to the
      condition's second term. */
  function ScaledLength(lengthTotal: real, globalScale: real): (r: real)
    requires lengthTotal > 0.0 && globalScale > 0.0
    ensures r > 0.0
  {
    MultDoubleLinear(lengthTotal, globalScale)
  }

  /** The condition node's red output: the measured distance over the scaled
      rest length when the limb is at least fully extended, and the
      condition's unset false colour otherwise. */
  function StretchRatio(distance: real, lengthTotal: real, globalScale: real, ifFalse: real): (r: real)
    requires lengthTotal > 0.0 && globalScale > 0.0
    ensures distance >= lengthTotal * globalScale ==> r >= 1.0 && r * (lengthTotal * globalScale) == distance
    ensures distance < lengthTotal * globalScale ==> r == ifFalse
  {
    var len := ScaledLength(lengthTotal, globalScale);
    ConditionGreaterOrEqual(distance, len, Divide(distance, len), ifFalse)
  }

  /** The primary-axis scale a segment PMA drives: the segment's weight
      (`upArm` / `loArm` style attribute), plus the stretch blend, minus 1. */
  function SegmentScale(weight: real, distance: real, lengthTotal: real, globalScale: real, ifFalse: real, stretch: real): (r: real)
    requires lengthTotal > 0.0 && globalScale > 0.0
    ensures stretch == 0.0 ==> r == weight
    ensures stretch == 1.0 ==> r == weight + StretchRatio(distance, lengthTotal, globalScale, ifFalse) - 1.0
  {
    Sum3(weight, BlendTwoAttr(1.0, StretchRatio(distance, lengthTotal, globalScale, ifFalse), stretch), -1.0)
  }

  /** With stretch on and both weights at their default 1, once the limb is
      pulled past its rest length both segments scale so that the chain
      spans exactly the measured distance. */
  lemma StretchedChainSpansDistance(lengthA: real, lengthB: real, distance: real, globalScale: real, ifFalse: real)
    requires lengthA > 0.0 && lengthB > 0.0 && globalScale > 0.0
    requires distance >= (lengthA + lengthB) * globalScale
    ensures var s := SegmentScale(1.0, distance, lengthA + lengthB, globalScale, ifFalse, 1.0);
            (lengthA * s + lengthB * s) * globalScale == distance
  {
    var total := lengthA + lengthB;
    var s := SegmentScale(1.0, distance, total, globalScale, ifFalse, 1.0);
    var ratio := StretchRatio(distance, total, globalScale, ifFalse);
    assert s == ratio;
    calc {
      (lengthA * s + lengthB * s) * globalScale;
      ratio * (total * globalScale);
      distance;
    }
  }

  /** Scaling the whole rig leaves the stretch unchanged: the measured
      distance and the rest length scale together. */
  lemma GlobalScaleInvariant(distance: real, lengthTotal: real, globalScale: real, ifFalse: real)
    requires lengthTotal > 0.0 && globalScale > 0.0
    ensures StretchRatio(distance * globalScale, lengthTotal, globalScale, ifFalse)
         == StretchRatio(distance, lengthTotal, 1.0, ifFalse)
  {
    var r1 := StretchRatio(distance * globalScale, lengthTotal, globalScale, ifFalse);
    var r2 := StretchRatio(distance, lengthTotal, 1.0, ifFalse);
    if distance >= lengthTotal {
      assert distance * globalScale >= lengthTotal * globalScale;
      assert r1 * lengthTotal * globalScale == distance * globalScale;
      assert r1 * lengthTotal == distance;
    } else {
      assert distance * globalScale < lengthTotal * globalScale;
    }
  }

  /** The FK stretch: the offset locator's primary translate is the rest
      offset times the control's `stretch`. */
  function FkOffset(restOffset: real, stretch: real): (r: real)
    ensures stretch == 1.0 ==> r == restOffset
    ensures stretch > 0.0 && restOffset > 0.0 ==> r > 0.0
  {
    MultDoubleLinear(restOffset, stretch)
  }

  /** The next joint's offset grows linearly with the FK control's
      `stretch`: scaling `stretch` by `k` scales the offset by `k`. */
  lemma FkStretchLinear(restOffset: real, stretch: real, k: real)
    ensures FkOffset(restOffset, stretch * k) == FkOffset(restOffset, stretch) * k
  {
  }

  /** Visibility switch: the IK group shows `fkIk`, the FK group its reverse.
      At either end of the switch exactly one group is visible, and in
      between the two visibilities always add up to 1. */
  lemma VisibilityExclusive(fkIk: real)
    ensures fkIk + Reverse(fkIk) == 1.0
    ensures fkIk == 1.0 ==> Reverse(fkIk) == 0.0
    ensures fkIk == 0.0 ==> Reverse(fkIk) == 1.0
  {
  }
}
