/** Small shared vocabulary: optional values, results with an error, and
    facts about sequences of names. */
module Common {

  datatype Option<+T> = None | Some(value: T)

  /** The outcome of an operation that may raise. */
  datatype Result<+T, +E> = Success(value: T) | Failure(error: E)

  /** Python's `zip` stops at the shorter list. */
  function Min(a: int, b: int): int
  {
    if a <= b then a else b
  }

  ghost predicate Distinct<T>(s: seq<T>)
  {
    forall i, j :: 0 <= i < j < |s| ==> s[i] != s[j]
  }

  function Elems<T>(s: seq<T>): set<T>
  {
    set x | x in s
  }

  /** Names handed out by a builder: none was taken before, no two coincide. */
  ghost predicate FreshNames(names: seq<string>, before: set<string>)
  {
    && Distinct(names)
    && forall i :: 0 <= i < |names| ==> names[i] !in before
  }

  /** A builder asked for the names `requested`, in order, and got `returned`:
      whenever the requested name was still free at the moment it was asked
      for (not in the scene before, not handed out earlier in the same run),
      it was used unchanged. */
  ghost predicate NamedAsRequested(before: set<string>, requested: seq<string>, returned: seq<string>)
  {
    && |requested| == |returned|
    && forall i :: 0 <= i < |returned| && requested[i] !in before && requested[i] !in returned[..i] ==>
         returned[i] == requested[i]
  }

  /** One more name handed out: it is the requested one whenever that was free. */
  lemma NamedAsRequestedSnoc(before: set<string>, requested: seq<string>, returned: seq<string>, r: string, x: string)
    requires NamedAsRequested(before, requested, returned)
    requires r !in before && r !in returned ==> x == r
    ensures NamedAsRequested(before, requested + [r], returned + [x])
  {
    assert (returned + [x])[..|returned|] == returned;
    forall i | 0 <= i < |returned| ensures (returned + [x])[..i] == returned[..i] {}
  }

  lemma FreshNamesSnoc(names: seq<string>, before: set<string>, x: string)
    requires FreshNames(names, before)
    requires x !in before && x !in names
    ensures FreshNames(names + [x], before)
  {
  }

  lemma ElemsSnoc<T>(s: seq<T>, x: T)
    ensures Elems(s + [x]) == Elems(s) + {x}
  {
  }

  /** A sequence's elements are those of all but its last, and the last. */
  lemma ElemsLast<T>(s: seq<T>)
    requires s != []
    ensures Elems(s) == Elems(s[..|s| - 1]) + {s[|s| - 1]}
  {
    assert s == s[..|s| - 1] + [s[|s| - 1]];
  }

  /** In two distinct, disjoint name sequences of equal length, the last
      names occur nowhere earlier in either. */
  lemma LastPairNew(xs: seq<string>, ys: seq<string>)
    requires |xs| == |ys| > 0
    requires Distinct(xs) && Distinct(ys) && Elems(xs) !! Elems(ys)
    ensures var n := |xs| - 1;
      forall i :: 0 <= i < n ==> xs[i] != xs[n] && xs[i] != ys[n] && ys[i] != xs[n] && ys[i] != ys[n]
  {
    var n := |xs| - 1;
    forall i | 0 <= i < n ensures xs[i] != ys[n] && ys[i] != xs[n] {
      assert xs[i] in Elems(xs) && ys[n] in Elems(ys);
      assert ys[i] in Elems(ys) && xs[n] in Elems(xs);
    }
  }

  /** Two updates of a union of three maps, each pushed into the part it
      belongs to. */
  lemma MapUnionUpdate2<K, V>(a: map<K, V>, b: map<K, V>, d: map<K, V>, x: K, vx: V, y: K, vy: V)
    requires x !in d
    ensures (a + b + d)[x := vx][y := vy] == a + b[x := vx] + d[y := vy]
  {
    var l, r := (a + b + d)[x := vx][y := vy], a + b[x := vx] + d[y := vy];
    assert l.Keys == r.Keys;
    forall k | k in l ensures l[k] == r[k] {}
  }

  /** The two halves of a distinct sequence are distinct and disjoint. */
  lemma DistinctConcat<T>(a: seq<T>, b: seq<T>)
    requires Distinct(a + b)
    ensures Distinct(a) && Distinct(b) && Elems(a) !! Elems(b)
  {
    forall i, j | 0 <= i < j < |a|
      ensures a[i] != a[j]
    {
      assert a[i] == (a + b)[i] && a[j] == (a + b)[j];
    }
    forall i, j | 0 <= i < j < |b|
      ensures b[i] != b[j]
    {
      assert b[i] == (a + b)[|a| + i] && b[j] == (a + b)[|a| + j];
    }
    forall i, j | 0 <= i < |a| && 0 <= j < |b|
      ensures a[i] != b[j]
    {
      assert a[i] == (a + b)[i] && b[j] == (a + b)[|a| + j];
    }
  }

  lemma SetAdd2<T>(s: set<T>, a: T, b: T)
    ensures s + {a} + {b} == s + {a, b}
  {
  }

  lemma SetAdd3<T>(s: set<T>, a: T, b: T, c: T)
    ensures s + {a} + {b} + {c} == s + {a, b, c}
  {
  }

  lemma SetAdd4<T>(s: set<T>, a: T, b: T, c: T, d: T)
    ensures s + {a} + {b} + {c} + {d} == s + {a, b, c, d}
  {
  }

  /** Two elements appended one at a time, then a tail. */
  lemma Append2<T>(a: seq<T>, x: T, y: T, c: seq<T>)
    ensures a + [x] + [y] + c == a + ([x, y] + c)
  {
  }

  lemma SetAdd5<T>(s: set<T>, a: T, b: T, c: T, d: T, e: T)
    ensures s + {a} + {b} + {c} + {d} + {e} == s + {a, b, c, d, e}
  {
  }

  lemma SetAdd6<T>(s: set<T>, a: T, b: T, c: T, d: T, e: T, f: T)
    ensures s + {a} + {b} + {c} + {d} + {e} + {f} == s + {a, b, c, d, e, f}
  {
  }

  /** Two updates at two distinct keys. */
  lemma Update2<K, V>(m: map<K, V>, a: K, va: V, b: K, vb: V)
    requires a != b
    ensures var t := m[a := va][b := vb];
      && t.Keys == m.Keys + {a, b}
      && t[a] == va && t[b] == vb
      && forall k :: k in m && k != a && k != b ==> t[k] == m[k]
  {
  }

  /** Four updates at four distinct keys. */
  lemma Update4<K, V>(m: map<K, V>, a: K, va: V, b: K, vb: V, c: K, vc: V, d: K, vd: V)
    requires a != b && a != c && a != d && b != c && b != d && c != d
    ensures var t := m[a := va][b := vb][c := vc][d := vd];
      && t.Keys == m.Keys + {a, b, c, d}
      && t[a] == va && t[b] == vb && t[c] == vc && t[d] == vd
      && forall k :: k in m && k != a && k != b && k != c && k != d ==> t[k] == m[k]
  {
  }

  /** Five updates at five distinct keys. */
  lemma Update5<K, V>(m: map<K, V>, a: K, va: V, b: K, vb: V, c: K, vc: V, d: K, vd: V, e: K, ve: V)
    requires a != b && a != c && a != d && a != e && b != c && b != d && b != e && c != d && c != e && d != e
    ensures var t := m[a := va][b := vb][c := vc][d := vd][e := ve];
      && t.Keys == m.Keys + {a, b, c, d, e}
      && t[a] == va && t[b] == vb && t[c] == vc && t[d] == vd && t[e] == ve
      && forall k :: k in m && k != a && k != b && k != c && k != d && k != e ==> t[k] == m[k]
  {
  }

  lemma MapUnionUpdate<K, V>(a: map<K, V>, b: map<K, V>, key: K, v: V)
    ensures (a + b)[key := v] == a + b[key := v]
  {
  }

  /** Names handed out one at a time: `sets[i]` are the names taken before
      the `i`-th was handed out, `names[i]` was free then and is the
      requested one whenever that was free too. */
  lemma {:induction false} StepwiseNames(sets: seq<set<string>>, names: seq<string>, requests: seq<string>)
    requires |sets| == |names| + 1 && |requests| == |names|
    requires forall i :: 0 <= i < |names| ==> sets[i + 1] == sets[i] + {names[i]}
    requires forall i :: 0 <= i < |names| ==> names[i] !in sets[i]
    requires forall i :: 0 <= i < |names| ==> requests[i] !in sets[i] ==> names[i] == requests[i]
    ensures sets[|names|] == sets[0] + Elems(names)
    ensures FreshNames(names, sets[0]) && NamedAsRequested(sets[0], requests, names)
    decreases |names|
  {
    if |names| > 0 {
      var n := |names| - 1;
      StepwiseNames(sets[..n + 1], names[..n], requests[..n]);
      ElemsLast(names);
      FreshNamesSnoc(names[..n], sets[0], names[n]);
      NamedAsRequestedSnoc(sets[0], requests[..n], names[..n], requests[n], names[n]);
      assert names == names[..n] + [names[n]];
      assert requests == requests[..n] + [requests[n]];
    }
  }

  /** When every requested name is free and no two coincide, a builder that
      keeps free names returns exactly the requested ones. */
  lemma {:induction false} AllFreeNamesKept(before: set<string>, requested: seq<string>, returned: seq<string>)
    requires NamedAsRequested(before, requested, returned)
    requires Distinct(requested)
    requires forall i :: 0 <= i < |requested| ==> requested[i] !in before
    ensures returned == requested
  {
    FreePrefixKept(before, requested, returned, |returned|);
  }

  /** The first `k` names come back as requested. */
  lemma {:induction false} FreePrefixKept(before: set<string>, requested: seq<string>, returned: seq<string>, k: nat)
    requires NamedAsRequested(before, requested, returned)
    requires Distinct(requested)
    requires forall i :: 0 <= i < |requested| ==> requested[i] !in before
    requires k <= |returned|
    ensures forall i :: 0 <= i < k ==> returned[i] == requested[i]
    decreases k
  {
    if k > 0 {
      var j := k - 1;
      FreePrefixKept(before, requested, returned, j);
      assert requested[j] !in returned[..j] by {
        forall m | 0 <= m < j
          ensures returned[..j][m] != requested[j]
        {
          assert returned[..j][m] == returned[m] == requested[m];
        }
      }
    }
  }
}
