/** Tensor shapes and torch's broadcasting rules on them.

    A shape lists the size of every axis, outermost first. Two shapes broadcast when,
    aligned at their right ends and with the shorter one padded by leading 1s, every
    pair of sizes is equal or contains a 1. */
module Shapes {
  import opened Wrappers

  type Shape = seq<nat>

  /** Number of elements of a tensor of shape `s` (the empty product is 1). */
  function Prod(s: Shape): nat
  {
    if |s| == 0 then 1 else s[0] * Prod(s[1..])
  }

  lemma ProdSingle(n: nat)
    ensures Prod([n]) == n
  {
    assert [n][1..] == [];
  }

  lemma ProdPair(a: nat, b: nat)
    ensures Prod([a, b]) == a * b
  {
    assert [a, b][1..] == [b];
    assert Prod([b]) == b;
  }

  lemma {:induction false} ProdConcat(a: Shape, b: Shape)
    ensures Prod(a + b) == Prod(a) * Prod(b)
  {
    if |a| == 0 {
      assert a + b == b;
    } else {
      assert (a + b)[1..] == a[1..] + b;
      ProdConcat(a[1..], b);
      assert Prod(a + b) == a[0] * (Prod(a[1..]) * Prod(b));
    }
  }

  /** The product of a shape splits at any axis `k`. */
  lemma ProdSplit(s: Shape, k: nat)
    requires k <= |s|
    ensures Prod(s) == Prod(s[..k]) * Prod(s[k..])
  {
    assert s == s[..k] + s[k..];
    ProdConcat(s[..k], s[k..]);
  }

  /** Removing the last axis divides the product by that axis' size. */
  lemma ProdLast(s: Shape)
    requires |s| > 0
    ensures Prod(s) == Prod(s[..|s| - 1]) * s[|s| - 1]
  {
    ProdSplit(s, |s| - 1);
    assert s[|s| - 1..] == [s[|s| - 1]];
  }

  function Ones(n: nat): (s: Shape)
    ensures |s| == n
    ensures forall i :: 0 <= i < n ==> s[i] == 1
  {
    seq(n, _ => 1)
  }

  lemma {:induction false} ProdOnes(n: nat)
    ensures Prod(Ones(n)) == 1
  {
    if n > 0 {
      assert Ones(n)[1..] == Ones(n - 1);
      ProdOnes(n - 1);
    }
  }

  /** `s` with leading 1s added up to rank `n` (what torch does to the shorter operand). */
  function PadLeft(s: Shape, n: nat): (p: Shape)
    requires |s| <= n
    ensures |p| == n
    ensures Prod(p) == Prod(s)
    ensures p[n - |s|..] == s
  {
    ProdConcat(Ones(n - |s|), s);
    ProdOnes(n - |s|);
    Ones(n - |s|) + s
  }

  /** torch's `expand` rule for equal ranks: every axis keeps its size or grows from 1. */
  predicate Expandable(from: Shape, to: Shape)
  {
    |from| == |to| && forall i :: 0 <= i < |from| ==> from[i] == to[i] || from[i] == 1
  }

  /** `s` broadcasts to `target`: it is no longer, and padded on the left it expands to it. */
  predicate BroadcastsTo(s: Shape, target: Shape)
  {
    |s| <= |target| && Expandable(PadLeft(s, |target|), target)
  }

  /** Two padded sizes are compatible when equal or when one of them is 1. */
  predicate Compatible(x: nat, y: nat)
  {
    x == y || x == 1 || y == 1
  }

  /** The broadcast size of two compatible sizes. */
  function Join(x: nat, y: nat): nat
  {
    if x == 1 then y else x
  }

  function Max(a: nat, b: nat): nat
  {
    if a < b then b else a
  }

  /** torch's `broadcast_shapes` for two shapes; `None` when they do not broadcast. */
  function BroadcastPair(a: Shape, b: Shape): (r: Option<Shape>)
    ensures r.Some? ==> |r.value| == Max(|a|, |b|)
  {
    var n := Max(|a|, |b|);
    var pa := PadLeft(a, n);
    var pb := PadLeft(b, n);
    if forall i :: 0 <= i < n ==> Compatible(pa[i], pb[i]) then
      Some(seq(n, i requires 0 <= i < n => Join(pa[i], pb[i])))
    else
      None
  }

  /** Broadcasting two shapes does not depend on their order. */
  lemma BroadcastPairCommutes(a: Shape, b: Shape)
    ensures BroadcastPair(a, b) == BroadcastPair(b, a)
  {
    var n := Max(|a|, |b|);
    assert n == Max(|b|, |a|);
    JoinAllCommutes(PadLeft(a, n), PadLeft(b, n));
  }

  /** Axis-wise compatibility and joining of two padded shapes do not depend on their order. */
  lemma JoinAllCommutes(pa: Shape, pb: Shape)
    requires |pa| == |pb|
    ensures (forall i :: 0 <= i < |pa| ==> Compatible(pa[i], pb[i]))
        <==> (forall i :: 0 <= i < |pa| ==> Compatible(pb[i], pa[i]))
    ensures (forall i :: 0 <= i < |pa| ==> Compatible(pa[i], pb[i])) ==>
      seq(|pa|, i requires 0 <= i < |pa| => Join(pa[i], pb[i]))
        == seq(|pa|, i requires 0 <= i < |pa| => Join(pb[i], pa[i]))
  {
  }

  /** When two shapes broadcast, both broadcast to the result. */
  lemma BroadcastPairSound(a: Shape, b: Shape)
    requires BroadcastPair(a, b).Some?
    ensures BroadcastsTo(a, BroadcastPair(a, b).value)
    ensures BroadcastsTo(b, BroadcastPair(a, b).value)
  {
  }

  /** Axis `i` of `s` padded on the left to rank `n`. */
  lemma PadLeftAt(s: Shape, n: nat, i: nat)
    requires |s| <= n && i < n
    ensures PadLeft(s, n)[i] == if i < n - |s| then 1 else s[i - (n - |s|)]
  {
  }

  /** Axis `i` of a shape that broadcasts to `t`, padded to the rank of `t`. */
  lemma BroadcastsToAt(s: Shape, t: Shape, i: nat)
    requires BroadcastsTo(s, t) && i < |t|
    ensures PadLeft(s, |t|)[i] == t[i] || PadLeft(s, |t|)[i] == 1
  {
  }

  /** Two shapes that share a broadcast target are compatible axis by axis. */
  lemma CompatibleUnderTarget(a: Shape, b: Shape, t: Shape)
    requires BroadcastsTo(a, t) && BroadcastsTo(b, t)
    ensures forall i :: 0 <= i < Max(|a|, |b|) ==>
      Compatible(PadLeft(a, Max(|a|, |b|))[i], PadLeft(b, Max(|a|, |b|))[i])
  {
    var n := Max(|a|, |b|);
    var d := |t| - n;
    forall i | 0 <= i < n
      ensures Compatible(PadLeft(a, n)[i], PadLeft(b, n)[i])
    {
      PadLeftAt(a, n, i);
      PadLeftAt(b, n, i);
      PadLeftAt(a, |t|, d + i);
      PadLeftAt(b, |t|, d + i);
      BroadcastsToAt(a, t, d + i);
      BroadcastsToAt(b, t, d + i);
    }
  }

  /** Two shapes with a common broadcast target `t` broadcast, and their broadcast
      broadcasts to `t` as well. */
  lemma BroadcastPairComplete(a: Shape, b: Shape, t: Shape)
    requires BroadcastsTo(a, t) && BroadcastsTo(b, t)
    ensures BroadcastPair(a, b).Some?
    ensures BroadcastsTo(BroadcastPair(a, b).value, t)
  {
    CompatibleUnderTarget(a, b, t);
    var n := Max(|a|, |b|);
    var d := |t| - n;
    var r := BroadcastPair(a, b).value;
    forall i | 0 <= i < |t|
      ensures PadLeft(r, |t|)[i] == t[i] || PadLeft(r, |t|)[i] == 1
    {
      PadLeftAt(r, |t|, i);
      if i >= d {
        var j := i - d;
        assert r[j] == Join(PadLeft(a, n)[j], PadLeft(b, n)[j]);
        PadLeftAt(a, n, j);
        PadLeftAt(b, n, j);
        PadLeftAt(a, |t|, i);
        PadLeftAt(b, |t|, i);
        BroadcastsToAt(a, t, i);
        BroadcastsToAt(b, t, i);
      }
    }
  }

  /** Broadcasting to a target is transitive. */
  lemma BroadcastsToTransitive(s: Shape, m: Shape, t: Shape)
    requires BroadcastsTo(s, m) && BroadcastsTo(m, t)
    ensures BroadcastsTo(s, t)
  {
    var d := |t| - |m|;
    forall i | 0 <= i < |t|
      ensures PadLeft(s, |t|)[i] == t[i] || PadLeft(s, |t|)[i] == 1
    {
      PadLeftAt(s, |t|, i);
      if i >= |t| - |s| {
        var j := i - d;
        PadLeftAt(s, |m|, j);
        BroadcastsToAt(s, m, j);
        PadLeftAt(m, |t|, i);
        BroadcastsToAt(m, t, i);
      }
    }
  }

  /** Every shape broadcasts to itself. */
  lemma BroadcastsToSelf(s: Shape)
    ensures BroadcastsTo(s, s)
  {
    assert PadLeft(s, |s|) == s;
  }

  /** The shape all of `shapes` broadcast to, as `torch.broadcast_tensors` computes it. */
  function CommonShape(shapes: seq<Shape>): (r: Option<Shape>)
  {
    if |shapes| == 0 then Some([])
    else
      match CommonShape(shapes[..|shapes| - 1])
      case None => None
      case Some(acc) => BroadcastPair(acc, shapes[|shapes| - 1])
  }

  /** Broadcasting with the empty shape changes nothing. */
  lemma BroadcastPairEmpty(a: Shape)
    ensures BroadcastPair([], a) == Some(a)
  {
    var n := Max(0, |a|);
    var pe := PadLeft([], n);
    var pa := PadLeft(a, n);
    assert pa == a;
    assert forall i :: 0 <= i < n ==> pe[i] == 1;
    var r := seq(n, i requires 0 <= i < n => Join(pe[i], pa[i]));
    assert r == a;
  }

  /** The common shape of two shapes is their pairwise broadcast. */
  lemma CommonShapeOfTwo(a: Shape, b: Shape)
    ensures CommonShape([a, b]) == BroadcastPair(a, b)
  {
    BroadcastPairEmpty(a);
    assert [a, b][..1] == [a];
    assert [a][..0] == [];
    assert CommonShape([a]) == Some(a);
  }

  /** The common shape is a broadcast target of every input shape. */
  lemma {:induction false} CommonShapeSound(shapes: seq<Shape>)
    requires CommonShape(shapes).Some?
    ensures forall i :: 0 <= i < |shapes| ==> BroadcastsTo(shapes[i], CommonShape(shapes).value)
  {
    if |shapes| > 0 {
      var init := shapes[..|shapes| - 1];
      var acc := CommonShape(init).value;
      var r := CommonShape(shapes).value;
      CommonShapeSound(init);
      BroadcastPairSound(acc, shapes[|shapes| - 1]);
      forall i | 0 <= i < |shapes|
        ensures BroadcastsTo(shapes[i], r)
      {
        if i < |shapes| - 1 {
          assert shapes[i] == init[i];
          BroadcastsToTransitive(shapes[i], acc, r);
        }
      }
    }
  }

  /** Whenever every shape broadcasts to some target `t`, the common shape exists and
      broadcasts to `t` as well: every common broadcast target is reachable from it. */
  lemma {:induction false} CommonShapeComplete(shapes: seq<Shape>, t: Shape)
    requires forall i :: 0 <= i < |shapes| ==> BroadcastsTo(shapes[i], t)
    ensures CommonShape(shapes).Some?
    ensures BroadcastsTo(CommonShape(shapes).value, t)
  {
    if |shapes| == 0 {
      assert PadLeft([], |t|) == Ones(|t|);
    } else {
      var init := shapes[..|shapes| - 1];
      forall i | 0 <= i < |init|
        ensures BroadcastsTo(init[i], t)
      {
        assert init[i] == shapes[i];
      }
      CommonShapeComplete(init, t);
      BroadcastPairComplete(CommonShape(init).value, shapes[|shapes| - 1], t);
    }
  }

  /** The largest rank among `shapes` (0 for none). */
  function MaxRank(shapes: seq<Shape>): (m: nat)
    ensures forall i :: 0 <= i < |shapes| ==> |shapes[i]| <= m
    ensures |shapes| > 0 ==> exists i :: 0 <= i < |shapes| && |shapes[i]| == m
  {
    if |shapes| == 0 then 0
    else
      var m := MaxRank(shapes[..|shapes| - 1]);
      var last := |shapes[|shapes| - 1]|;
      assert forall i :: 0 <= i < |shapes| - 1 ==> shapes[i] == shapes[..|shapes| - 1][i];
      if m < last then last else m
  }

  /** The common shape has exactly the largest input rank. */
  lemma {:induction false} CommonShapeRank(shapes: seq<Shape>)
    requires CommonShape(shapes).Some?
    ensures |CommonShape(shapes).value| == MaxRank(shapes)
  {
    if |shapes| > 0 {
      CommonShapeRank(shapes[..|shapes| - 1]);
    }
  }

  lemma ProdThree(a: nat, b: nat, c: nat)
    ensures Prod([a, b, c]) == a * (b * c)
  {
    assert [a, b, c][1..] == [b, c];
    ProdPair(b, c);
  }

  /** `idx` is a multi-index inside shape `s`: one index per axis, each below its size. */
  predicate InBounds(s: Shape, idx: seq<nat>)
  {
    |idx| == |s| && forall k :: 0 <= k < |s| ==> idx[k] < s[k]
  }

  /** Row-major position of the multi-index `idx` in a tensor of shape `s`. */
  function Offset(s: Shape, idx: seq<nat>): (o: nat)
    requires InBounds(s, idx)
    ensures o < Prod(s)
  {
    if |s| == 0 then 0
    else
      assert InBounds(s[1..], idx[1..]);
      var rest := Offset(s[1..], idx[1..]);
      OffsetBound(idx[0], rest, s[0], Prod(s[1..]));
      idx[0] * Prod(s[1..]) + rest
  }

  /** The row-major position splits at axis `k`: the position among the axes before `k`
      counts whole blocks of `s[k] * Prod(s[k + 1..])` elements, then `idx[k]` counts rows
      of `Prod(s[k + 1..])`, then the position among the later axes. */
  lemma {:induction false} OffsetSplit(s: Shape, idx: seq<nat>, k: nat)
    requires InBounds(s, idx) && k < |s|
    ensures InBounds(s[..k], idx[..k]) && InBounds(s[k + 1..], idx[k + 1..])
    ensures Offset(s, idx) ==
      Offset(s[..k], idx[..k]) * (s[k] * Prod(s[k + 1..])) + idx[k] * Prod(s[k + 1..]) + Offset(s[k + 1..], idx[k + 1..])
  {
    assert InBounds(s[..k], idx[..k]) && InBounds(s[k + 1..], idx[k + 1..]);
    if k > 0 {
      var t, jdx := s[1..], idx[1..];
      assert InBounds(t, jdx);
      OffsetSplit(t, jdx, k - 1);
      assert t[..k - 1] == s[1..k] && jdx[..k - 1] == idx[1..k];
      assert t[k - 1] == s[k] && jdx[k - 1] == idx[k];
      assert t[k..] == s[k + 1..] && jdx[k..] == idx[k + 1..];
      var b: int, pre: int, opre: int := Prod(s[k + 1..]), Prod(s[1..k]), Offset(s[1..k], idx[1..k]);
      var big: int, tail: int := s[k] * b, idx[k] * b + Offset(s[k + 1..], idx[k + 1..]);
      assert Offset(s[..k], idx[..k]) == idx[0] * pre + opre by {
        assert s[..k][1..] == s[1..k] && idx[..k][1..] == idx[1..k];
      }
      assert Prod(s[1..]) == pre * big by {
        ProdSplit(t, k - 1);
        assert t[k - 1..] == [s[k]] + s[k + 1..];
        ProdConcat([s[k]], s[k + 1..]);
        assert [s[k]][1..] == [];
      }
      assert Offset(s, idx) == idx[0] * (pre * big) + (opre * big + tail);
      BlockArith(idx[0], pre, big, opre, tail);
    }
  }

  /** Indices in range for two shapes stay in range for the concatenated shape. */
  lemma InBoundsConcat(a: Shape, b: Shape, i: seq<nat>, k: seq<nat>)
    requires InBounds(a, i) && InBounds(b, k)
    ensures InBounds(a + b, i + k)
    ensures |a| > 0 ==> (a + b)[1..] == a[1..] + b && (i + k)[1..] == i[1..] + k && InBounds(a[1..], i[1..])
  {
    if |a| > 0 {
      assert (a + b)[1..] == a[1..] + b && (i + k)[1..] == i[1..] + k;
    }
  }

  /** The row-major position in a concatenated shape: whole blocks of `Prod(b)` for the
      index into `a`, then the position within `b`. */
  lemma {:induction false} OffsetConcat(a: Shape, b: Shape, i: seq<nat>, k: seq<nat>)
    requires InBounds(a, i) && InBounds(b, k)
    ensures InBounds(a + b, i + k)
    ensures Offset(a + b, i + k) == Offset(a, i) * Prod(b) + Offset(b, k)
  {
    InBoundsConcat(a, b, i, k);
    if |a| > 0 {
      OffsetConcat(a[1..], b, i[1..], k);
      var x: int, pa: int, pb: int, oa: int, ob: int := i[0], Prod(a[1..]), Prod(b), Offset(a[1..], i[1..]), Offset(b, k);
      assert Offset(a + b, i + k) == x * (pa * pb) + (oa * pb + ob) by {
        ProdConcat(a[1..], b);
        assert (i + k)[0] == x;
      }
      BlockArith(x, pa, pb, oa, ob);
    } else {
      assert a + b == b && i + k == k;
    }
  }

  /** An axis of length one, indexed at 0, does not move any position. */
  lemma UnitAxisOffset(a: Shape, c: Shape, ia: seq<nat>, ic: seq<nat>)
    requires InBounds(a, ia) && InBounds(c, ic)
    ensures InBounds(a + [1] + c, ia + [0] + ic) && InBounds(a + c, ia + ic)
    ensures Offset(a + [1] + c, ia + [0] + ic) == Offset(a + c, ia + ic)
  {
    var s, jx, k := a + [1] + c, ia + [0] + ic, |a|;
    assert InBounds(s, jx);
    OffsetSplit(s, jx, k);
    assert s[..k] == a && jx[..k] == ia && s[k] == 1 && jx[k] == 0;
    assert s[k + 1..] == c && jx[k + 1..] == ic;
    OffsetConcat(a, c, ia, ic);
  }

  /** The row-major positions in shapes of rank three and four, written out. */
  lemma OffsetThree(s: Shape, i: nat, j: nat, k: nat)
    requires |s| == 3 && InBounds(s, [i, j, k])
    ensures Offset(s, [i, j, k]) == i * (s[1] * s[2]) + j * s[2] + k
  {
    var t, u := s[1..], s[2..];
    assert t[1..] == u && u[1..] == [];
    assert [i, j, k][1..] == [j, k] && [j, k][1..] == [k] && [k][1..] == [];
    assert Offset(u, [k]) == k;
    assert Offset(t, [j, k]) == j * s[2] + k;
    ProdPair(s[1], s[2]);
    assert t == [s[1], s[2]];
  }

  lemma OffsetFour(s: Shape, i: nat, j: nat, k: nat, l: nat)
    requires |s| == 4 && InBounds(s, [i, j, k, l])
    ensures Offset(s, [i, j, k, l]) == i * (s[1] * (s[2] * s[3])) + j * (s[2] * s[3]) + k * s[3] + l
  {
    var t := s[1..];
    assert InBounds(t, [j, k, l]);
    assert [i, j, k, l][1..] == [j, k, l];
    OffsetThree(t, j, k, l);
    assert t[1..] == [s[2], s[3]];
    ProdPair(s[2], s[3]);
    assert Prod(t) == s[1] * Prod(t[1..]);
  }

  /** Position `j` of block `a` of blocks of size `m` is found again by division. */
  lemma DivModOf(a: nat, j: nat, m: nat)
    requires j < m
    ensures (a * m + j) / m == a && (a * m + j) % m == j
  {
    var p := a * m + j;
    DivMod(p, m);
    var q, r := p / m, p % m;
    if q < a {
      MulLeMono(q + 1, a, m);
    } else if q > a {
      MulLeMono(a + 1, q, m);
    }
  }

  lemma MulLeMono(a: nat, b: nat, c: nat)
    requires a <= b
    ensures a * c <= b * c
  {
  }

  /** Block `q` of size `b`, position `s` inside it, lies below `n` blocks when q < n. */
  lemma OffsetBound(q: nat, s: nat, n: nat, b: nat)
    requires q < n && s < b
    ensures q * b + s < n * b
  {
    MulLeMono(q + 1, n, b);
    assert (q + 1) * b == q * b + b;
  }

  /** Row `k` of `n` rows of length `b` ends within the `n * b` elements. */
  lemma RowBound(k: nat, n: nat, b: nat)
    requires k < n
    ensures k * b + b <= n * b
  {
    MulLeMono(k + 1, n, b);
  }

  /** Regrouping a position counted in blocks of `pa * pb`. */
  lemma BlockArith(x: int, pa: int, pb: int, oa: int, ob: int)
    ensures x * (pa * pb) + (oa * pb + ob) == (x * pa + oa) * pb + ob
  {
  }

  lemma MulAdd(a: nat, b: nat, x: nat)
    ensures (a + b) * x == a * x + b * x
  {
  }

  lemma MulAssoc(a: nat, b: nat, c: nat)
    ensures a * b * c == a * (b * c)
  {
  }

  lemma DivMod(i: nat, b: nat)
    requires b > 0
    ensures i == (i / b) * b + i % b
  {
  }

  lemma MulSucc(n: nat, x: nat)
    requires n > 0
    ensures n * x == x + (n - 1) * x
  {
  }

  lemma MulPositive(a: nat, b: nat)
    requires a * b > 0
    ensures a > 0 && b > 0
  {
  }

  lemma MulLtCancel(x: nat, a: nat, b: nat)
    requires x * b < a * b
    ensures x < a
  {
  }

  /** Dividing an index below `a * b` by `b` gives a block number below `a`. */
  lemma DivBound(i: nat, a: nat, b: nat)
    requires i < a * b
    ensures b > 0
    ensures i / b < a && i % b < b
  {
    MulPositive(a, b);
    MulLtCancel(i / b, a, b);
  }
}
