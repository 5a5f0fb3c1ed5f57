/** Axis labels such as `X`, `-Y` or `Z` and the unit vectors they stand for. */
module Axis {
  import opened Common

  datatype Vec3 = Vec3(x: int, y: int, z: int)

  datatype AxisError =
    | EmptyLabel              // indexing the last character of '' raises
    | UnknownAxis(letter: char)

  function Negate(v: Vec3): Vec3
  {
    Vec3(-v.x, -v.y, -v.z)
  }

  predicate IsAxisLetter(c: char)
  {
    c == 'X' || c == 'Y' || c == 'Z'
  }

  /** The component of `v` along the axis lettered `c`. */
  function Component(v: Vec3, c: char): int
    requires IsAxisLetter(c)
  {
    if c == 'X' then v.x else if c == 'Y' then v.y else v.z
  }

  /** -1 when the name holds a `-`, 1 otherwise. */
  function Sign(name: string): int
  {
    if '-' in name then -1 else 1
  }

  function LastChar(name: string): char
    requires name != []
  {
    name[|name| - 1]
  }

  /** `define_axis`: the last character picks the axis, and a `-` anywhere in
      the name flips the vector. */
  function DefineAxis(name: string): (r: Result<Vec3, AxisError>)
    ensures name == [] ==> r == Failure(EmptyLabel)
    ensures name != [] && !IsAxisLetter(LastChar(name)) ==> r == Failure(UnknownAxis(LastChar(name)))
    ensures r.Success? <==> name != [] && IsAxisLetter(LastChar(name))
    ensures r.Success? && LastChar(name) == 'X' ==> r.value == Vec3(Sign(name), 0, 0)
    ensures r.Success? && LastChar(name) == 'Y' ==> r.value == Vec3(0, Sign(name), 0)
    ensures r.Success? && LastChar(name) == 'Z' ==> r.value == Vec3(0, 0, Sign(name))
  {
    if name == [] then Failure(EmptyLabel)
    else
      var last := name[|name| - 1];
      if !IsAxisLetter(last) then Failure(UnknownAxis(last))
      else
        var u := if last == 'X' then Vec3(1, 0, 0)
                 else if last == 'Y' then Vec3(0, 1, 0)
                 else Vec3(0, 0, 1);
        Success(if '-' in name then Negate(u) else u)
  }

  /** Prefixing a name that has no `-` with one negates its vector, and
      leaves an invalid name invalid. */
  lemma MinusNegates(name: string)
    requires name != [] && '-' !in name
    ensures DefineAxis("-" + name).Success? == DefineAxis(name).Success?
    ensures DefineAxis(name).Success? ==>
              DefineAxis("-" + name).value == Negate(DefineAxis(name).value)
  {
    var m := "-" + name;
    assert LastChar(m) == LastChar(name);
    assert '-' in m by { assert m[0] == '-'; }
  }

  /** A name determines its vector by its last character and by whether it
      contains a `-`, and by nothing else. */
  lemma AxisDependsOnLetterAndSign(a: string, b: string)
    requires a != [] && b != []
    requires LastChar(a) == LastChar(b)
    requires Sign(a) == Sign(b)
    ensures DefineAxis(a) == DefineAxis(b)
  {
  }

  /** Two labels with different letters, or with the same letter but
      different signs, give different vectors. */
  lemma DistinctLabelsDistinctVectors(a: string, b: string)
    requires DefineAxis(a).Success? && DefineAxis(b).Success?
    requires LastChar(a) != LastChar(b) || Sign(a) != Sign(b)
    ensures DefineAxis(a).value != DefineAxis(b).value
  {
    var va, vb := DefineAxis(a).value, DefineAxis(b).value;
    var la := LastChar(a);
    assert Component(va, la) == Sign(a);
    assert Component(vb, la) == (if LastChar(b) == la then Sign(b) else 0);
  }
}
