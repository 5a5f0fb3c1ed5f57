/** The naming scheme of the limb rig: the strings the build asks the scene
    for, and the few Python string operations it applies to them. */
module Names {

  // ---------------------------------------------------------------------
  // Python string operations used by the build (ASCII only)
  // ---------------------------------------------------------------------

  predicate OccursAt(s: string, pat: string, i: nat)
  {
    i + |pat| <= |s| && s[i..i + |pat|] == pat
  }

  /** Python's `s.replace(pat, rep)`: every non-overlapping occurrence of
      `pat`, found scanning left to right, is replaced by `rep`. */
  function ReplaceAll(s: string, pat: string, rep: string): string
    requires pat != []
    decreases |s|
  {
    if |s| < |pat| then s
    else if s[..|pat|] == pat then rep + ReplaceAll(s[|pat|..], pat, rep)
    else [s[0]] + ReplaceAll(s[1..], pat, rep)
  }

  /** A string in which `pat` does not occur is left as it is. */
  lemma {:induction false} ReplaceAllAbsent(s: string, pat: string, rep: string)
    requires pat != []
    requires forall i :: 0 <= i < |s| ==> !OccursAt(s, pat, i)
    ensures ReplaceAll(s, pat, rep) == s
  {
    if |s| >= |pat| {
      assert !OccursAt(s, pat, 0);
      forall i | 0 <= i < |s[1..]|
        ensures !OccursAt(s[1..], pat, i)
      {
        assert !OccursAt(s, pat, i + 1);
        if i + |pat| <= |s[1..]| {
          assert s[1..][i..i + |pat|] == s[i + 1..i + 1 + |pat|];
        }
      }
      ReplaceAllAbsent(s[1..], pat, rep);
      assert s == [s[0]] + s[1..];
    }
  }

  /** When the only occurrence of `pat` in `s + pat` is the final one, the
      replacement touches that occurrence alone. */
  lemma {:induction false} ReplaceAllSuffix(s: string, pat: string, rep: string)
    requires pat != []
    requires forall i :: 0 <= i < |s| ==> !OccursAt(s + pat, pat, i)
    ensures ReplaceAll(s + pat, pat, rep) == s + rep
  {
    if s == [] {
      assert s + pat == pat;
      assert pat[|pat|..] == [];
    } else {
      var t := s + pat;
      assert !OccursAt(t, pat, 0);
      assert t[1..] == s[1..] + pat;
      forall i | 0 <= i < |s[1..]|
        ensures !OccursAt(s[1..] + pat, pat, i)
      {
        assert !OccursAt(t, pat, i + 1);
        var u := s[1..] + pat;
        var a, b := u[i..i + |pat|], t[i + 1..i + 1 + |pat|];
        forall j | 0 <= j < |pat|
          ensures a[j] == b[j]
        {
          assert a[j] == u[i + j] == t[i + 1 + j] == b[j];
        }
        assert a == b;
      }
      ReplaceAllSuffix(s[1..], pat, rep);
      assert [s[0]] + (s[1..] + rep) == s + rep;
    }
  }

  function UpperChar(c: char): char
  {
    if 'a' <= c <= 'z' then (c as int - 32) as char else c
  }

  function LowerChar(c: char): char
  {
    if 'A' <= c <= 'Z' then (c as int + 32) as char else c
  }

  predicate IsLetter(c: char)
  {
    'a' <= c <= 'z' || 'A' <= c <= 'Z'
  }

  /** Python's `s.upper()`. */
  function Upper(s: string): (r: string)
    ensures |r| == |s|
    ensures forall i :: 0 <= i < |s| ==> !('a' <= r[i] <= 'z')
    ensures forall i :: 0 <= i < |s| && !IsLetter(s[i]) ==> r[i] == s[i]
    ensures forall i :: 0 <= i < |s| && IsLetter(s[i]) ==> IsLetter(r[i]) && LowerChar(r[i]) == LowerChar(s[i])
  {
    seq(|s|, i requires 0 <= i < |s| => UpperChar(s[i]))
  }

  /** Python's `s.title()`: a letter is upper-cased when the character before
      it is not a letter, and lower-cased otherwise; `afterLetter` says whether
      the character before `s` was a letter. */
  function TitleFrom(s: string, afterLetter: bool): (r: string)
    ensures |r| == |s|
    ensures forall i :: 0 <= i < |s| && !IsLetter(s[i]) ==> r[i] == s[i]
    ensures forall i :: 0 <= i < |s| && IsLetter(s[i]) && (if i == 0 then afterLetter else IsLetter(s[i - 1])) ==>
              r[i] == LowerChar(s[i])
    ensures forall i :: 0 <= i < |s| && IsLetter(s[i]) && !(if i == 0 then afterLetter else IsLetter(s[i - 1])) ==>
              r[i] == UpperChar(s[i])
    decreases |s|
  {
    if s == [] then []
    else
      var c := s[0];
      [if !IsLetter(c) then c else if afterLetter then LowerChar(c) else UpperChar(c)]
        + TitleFrom(s[1..], IsLetter(c))
  }

  function Title(s: string): string
  {
    TitleFrom(s, false)
  }

  /** Title-casing twice is title-casing once. */
  lemma {:induction false} TitleFromIdempotent(s: string, afterLetter: bool)
    ensures TitleFrom(TitleFrom(s, afterLetter), afterLetter) == TitleFrom(s, afterLetter)
  {
    if s != [] {
      var t := TitleFrom(s, afterLetter);
      assert t[0] == if !IsLetter(s[0]) then s[0] else if afterLetter then LowerChar(s[0]) else UpperChar(s[0]);
      assert IsLetter(t[0]) == IsLetter(s[0]);
      assert t[1..] == TitleFrom(s[1..], IsLetter(s[0]));
      TitleFromIdempotent(s[1..], IsLetter(s[0]));
    }
  }

  lemma TitleIdempotent(s: string)
    ensures Title(Title(s)) == Title(s)
  {
    TitleFromIdempotent(s, false);
  }

  // ---------------------------------------------------------------------
  // Names the build asks for
  // ---------------------------------------------------------------------

  /** `side + '_' + part`, the prefix of every limb-level name and tag. */
  function BaseName(side: string, part: string): string
  {
    side + "_" + part
  }

  /** Joint `{side}_{alias}_{suffix}_JNT`: side and alias, but not the part. */
  function JointName(side: string, alias: string, suffix: string): string
  {
    side + "_" + alias + "_" + suffix + "_JNT"
  }

  function JointNames(side: string, aliases: seq<string>, suffix: string): (r: seq<string>)
    ensures |r| == |aliases|
    ensures forall i :: 0 <= i < |aliases| ==> r[i] == JointName(side, aliases[i], suffix)
  {
    seq(|aliases|, i requires 0 <= i < |aliases| => JointName(side, aliases[i], suffix))
  }

  lemma JointNamesSnoc(side: string, aliases: seq<string>, i: nat, suffix: string)
    requires i < |aliases|
    ensures JointNames(side, aliases[..i + 1], suffix) == JointNames(side, aliases[..i], suffix) + [JointName(side, aliases[i], suffix)]
  {
  }

  /** FK control `{side}_{alias}_FK_CTRL`: again no part. */
  function FkCtrlName(side: string, alias: string): string
  {
    side + "_" + alias + "_FK_CTRL"
  }

  function FkCtrlNames(side: string, aliases: seq<string>): (r: seq<string>)
    ensures |r| == |aliases|
    ensures forall i :: 0 <= i < |aliases| ==> r[i] == FkCtrlName(side, aliases[i])
  {
    seq(|aliases|, i requires 0 <= i < |aliases| => FkCtrlName(side, aliases[i]))
  }

  lemma FkCtrlNamesSnoc(side: string, aliases: seq<string>, i: nat)
    requires i < |aliases|
    ensures FkCtrlNames(side, aliases[..i + 1]) == FkCtrlNames(side, aliases[..i]) + [FkCtrlName(side, aliases[i])]
  {
  }

  /** The offset group the alignment helper puts above a control. */
  function OffsetName(ctrl: string): string
  {
    ctrl + "_OFF_GRP"
  }

  lemma OffsetNameInjective(a: string, b: string)
    requires OffsetName(a) == OffsetName(b)
    ensures a == b
  {
    assert a == OffsetName(a)[..|a|];
    assert b == OffsetName(b)[..|b|];
  }

  /** An FK control name ends in `CTRL` and an offset group name in `GRP`. */
  lemma CtrlNameNotOffsetName(side: string, alias: string, ctrl: string)
    ensures FkCtrlName(side, alias) != OffsetName(ctrl)
  {
    var a, b := FkCtrlName(side, alias), OffsetName(ctrl);
    assert a[|a| - 1] == 'L' && b[|b| - 1] == 'P';
  }

  function WorldCtrlName(base: string): string { base + "_IK_CTRL" }
  function LocalCtrlName(base: string): string { base + "_local_IK_CTRL" }
  function PvCtrlName(base: string): string { base + "_PV_CTRL" }
  function SettingsCtrlName(base: string): string { base + "_settings_CTRL" }
  function IkHandleName(base: string): string { base + "_IKH" }

  /** The base IK control is named after the first alias, like a joint. */
  function BaseCtrlName(side: string, alias: string): string
  {
    side + "_" + alias + "_IK_CTRL"
  }

  /** Blend node of a bind joint: `bind_JNT` replaced by `<attr>_BCN`. */
  function BlendName(bind: string, attr: string): string
  {
    ReplaceAll(bind, "bind_JNT", attr + "_BCN")
  }

  /** FK stretch multiplier of a control: `CTRL` replaced by `_stretch_MDL`. */
  function FkStretchMdlName(ctrl: string): string
  {
    ReplaceAll(ctrl, "CTRL", "_stretch_MDL")
  }

  /** Offset locator of an FK joint: `JNT` replaced by `OFF_LOC`. */
  function OffsetLocName(joint: string): string
  {
    ReplaceAll(joint, "JNT", "OFF_LOC")
  }

  /** Names of the control tags: `{side}_{part}_{role}`. */
  function RoleTag(base: string, role: string): string
  {
    base + "_" + role
  }

  /** The per-segment stretch weights: `up` / `lo` followed by the title-cased part. */
  function UpWeightName(part: string): string { "up" + Title(part) }
  function LoWeightName(part: string): string { "lo" + Title(part) }

  // The IK stretch network.  The two segment sums are named after the
  // weights alone, without the side.
  function DistanceName(base: string): string { base + "_DST" }
  function ConditionName(base: string): string { base + "_CND" }
  function StartLocName(base: string): string { base + "_start_LOC" }
  function EndLocName(base: string): string { base + "_end_LOC" }
  function StretchMdnName(base: string): string { base + "_stretch_MDN" }
  function StretchBtaName(base: string): string { base + "_stretch_BTA" }
  function PmaName(weight: string): string { weight + "_PMA" }
  function GlobalScaleMdlName(base: string): string { base + "_globalScale_MDL" }

  /** The decomposeMatrix node of an FK offset locator. */
  function DcmName(loc: string): string { loc + "_DCM" }

  // The group tree; the top group is the base name in upper case.
  function FkCtrlGrpName(base: string): string { base + "_FK_CTRL_GRP" }
  function IkCtrlGrpName(base: string): string { base + "_IK_CTRL_GRP" }
  function SkeletonGrpName(base: string): string { base + "_skeleton_GRP" }
  function NoXformGrpName(base: string): string { base + "_noXform_GRP" }
  function RigGrpName(base: string): string { base + "_rig_GRP" }
  function AllGrpName(base: string): string { Upper(base) }

  function VisReverseName(base: string): string { base + "_fkIk_vis_REV" }

  // The pole vector guide curve and its two clusters.
  function GuideName(start: string): string { start + "_GDE" }
  function ClusterName(n: string): string { n + "_CLS" }
  function ClusterHandleName(n: string): string { ClusterName(n) + "Handle" }

  /** The name of a bind joint's blend node, spelled out: whenever `bind_JNT`
      does not already occur inside `{side}_{alias}_`, the blend node of
      `{side}_{alias}_bind_JNT` for channel `attr` is `{side}_{alias}_{attr}_BCN`. */
  lemma BlendNameOfBindJoint(side: string, alias: string, attr: string)
    requires forall i :: 0 <= i < |side + "_" + alias + "_"| ==>
               !OccursAt(side + "_" + alias + "_" + "bind_JNT", "bind_JNT", i)
    ensures BlendName(JointName(side, alias, "bind"), attr) == side + "_" + alias + "_" + attr + "_BCN"
  {
    var pre := side + "_" + alias + "_";
    assert JointName(side, alias, "bind") == pre + "bind_JNT";
    ReplaceAllSuffix(pre, "bind_JNT", attr + "_BCN");
  }

  /** The FK stretch multiplier of control `{side}_{alias}_FK_CTRL` is
      `{side}_{alias}_FK__stretch_MDL` (with a doubled underscore) whenever
      `CTRL` does not occur earlier in the name. */
  lemma FkStretchMdlNameOfControl(side: string, alias: string)
    requires forall i :: 0 <= i < |side + "_" + alias + "_FK_"| ==>
               !OccursAt(side + "_" + alias + "_FK_" + "CTRL", "CTRL", i)
    ensures FkStretchMdlName(FkCtrlName(side, alias)) == side + "_" + alias + "_FK__stretch_MDL"
  {
    var pre := side + "_" + alias + "_FK_";
    assert FkCtrlName(side, alias) == pre + "CTRL";
    ReplaceAllSuffix(pre, "CTRL", "_stretch_MDL");
  }

  /** The offset locator of FK joint `{side}_{alias}_FK_JNT` is
      `{side}_{alias}_FK_OFF_LOC` whenever `JNT` does not occur earlier. */
  lemma OffsetLocNameOfJoint(side: string, alias: string)
    requires forall i :: 0 <= i < |side + "_" + alias + "_FK_"| ==>
               !OccursAt(side + "_" + alias + "_FK_" + "JNT", "JNT", i)
    ensures OffsetLocName(JointName(side, alias, "FK")) == side + "_" + alias + "_FK_OFF_LOC"
  {
    var pre := side + "_" + alias + "_FK_";
    assert JointName(side, alias, "FK") == pre + "JNT";
    ReplaceAllSuffix(pre, "JNT", "OFF_LOC");
  }

  /** Within one chain, joints asked for with different aliases get
      different names. */
  lemma JointNameInjective(side: string, a: string, b: string, suffix: string)
    requires a != b
    ensures JointName(side, a, suffix) != JointName(side, b, suffix)
  {
    var t := "_" + suffix + "_JNT";
    assert JointName(side, a, suffix) == side + "_" + a + t;
    assert JointName(side, b, suffix) == side + "_" + b + t;
    if |a| == |b| {
      var k :| 0 <= k < |a| && a[k] != b[k];
      assert JointName(side, a, suffix)[|side| + 1 + k] == a[k];
      assert JointName(side, b, suffix)[|side| + 1 + k] == b[k];
    }
  }
}
