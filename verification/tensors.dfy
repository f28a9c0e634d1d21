/** Tensors as a shape and a flat row-major sequence of values, and the torch primitives
    the shape code is built from: `view`, `unsqueeze`, `expand`, broadcasting, `repeat`,
    summing an axis, indexing, and `cat`. */
module Tensors {
  import opened Wrappers
  import opened Shapes
  import Collections

  /** A tensor: its shape and its elements in row-major order (last axis fastest). */
  datatype Tensor = Tensor(shape: Shape, data: seq<real>) {
    predicate Valid() {
      |data| == Prod(shape)
    }
  }

  function Sum(xs: seq<real>): real
  {
    if |xs| == 0 then 0.0 else xs[0] + Sum(xs[1..])
  }

  lemma {:induction false} SumConcat(a: seq<real>, b: seq<real>)
    ensures Sum(a + b) == Sum(a) + Sum(b)
  {
    if |a| > 0 {
      assert (a + b)[1..] == a[1..] + b;
      SumConcat(a[1..], b);
    } else {
      assert a + b == b;
    }
  }

  /** A tensor of shape `s` whose every element is `v`. */
  function Filled(s: Shape, v: real): (t: Tensor)
    ensures t.Valid() && t.shape == s
    ensures forall i :: 0 <= i < |t.data| ==> t.data[i] == v
  {
    Tensor(s, seq(Prod(s), _ => v))
  }

  /** `tensor_range`: the set of values the tensor holds. */
  function Values(t: Tensor): set<real>
  {
    set i | 0 <= i < |t.data| :: t.data[i]
  }

  /** The element at multi-index `idx`. */
  function Entry(t: Tensor, idx: seq<nat>): real
    requires t.Valid() && InBounds(t.shape, idx)
  {
    t.data[Offset(t.shape, idx)]
  }

  /** `view`: the same elements under another shape; a RuntimeError when the element
      counts differ. */
  function View(t: Tensor, s: Shape): (r: Result<Tensor>)
    requires t.Valid()
    ensures r.Ok? <==> Prod(s) == Prod(t.shape)
    ensures r.Err? ==> r.error == RuntimeError
    ensures r.Ok? ==> r.value.Valid() && r.value.shape == s && r.value.data == t.data
  {
    if Prod(s) == |t.data| then Ok(Tensor(s, t.data)) else Err(RuntimeError)
  }

  /** Viewing back to the original shape undoes a view. */
  lemma ViewRoundTrip(t: Tensor, s: Shape)
    requires t.Valid() && View(t, s).Ok?
    ensures View(View(t, s).value, t.shape) == Ok(t)
  {
  }

  /** `unsqueeze(dim)`: a new axis of size 1 before axis `dim`, elements unchanged. */
  function Unsqueeze(t: Tensor, dim: nat): (r: Tensor)
    requires t.Valid() && dim <= |t.shape|
    ensures r.Valid()
    ensures r.shape == t.shape[..dim] + [1] + t.shape[dim..]
    ensures r.data == t.data
  {
    var s := t.shape[..dim] + [1] + t.shape[dim..];
    ProdConcat(t.shape[..dim] + [1], t.shape[dim..]);
    ProdConcat(t.shape[..dim], [1]);
    ProdSplit(t.shape, dim);
    Tensor(s, t.data)
  }

  /** Dropping the first axis of two expandable shapes keeps them expandable. */
  lemma ExpandableTail(from: Shape, to: Shape)
    requires Expandable(from, to) && |from| > 0
    ensures Expandable(from[1..], to[1..])
  {
    forall k | 0 <= k < |from| - 1
      ensures from[1..][k] == to[1..][k] || from[1..][k] == 1
    {
      assert from[1..][k] == from[k + 1];
    }
  }

  /** Flat index of the input element that output element `i` of an `expand` from shape
      `from` to shape `to` reads: an axis of size 1 always reads its only slice. */
  function ExpandSource(i: nat, from: Shape, to: Shape): (j: nat)
    requires Expandable(from, to) && i < Prod(to)
    ensures j < Prod(from)
    decreases |from|
  {
    if |from| == 0 then 0
    else
      var bt := Prod(to[1..]);
      var bf := Prod(from[1..]);
      ExpandableTail(from, to);
      assert i < to[0] * bt;
      DivBound(i, to[0], bt);
      var q: nat := if from[0] == 1 then 0 else i / bt;
      assert q < from[0];
      var inner := ExpandSource(i % bt, from[1..], to[1..]);
      OffsetBound(q, inner, from[0], bf);
      assert Prod(from) == from[0] * bf;
      q * bf + inner
  }

  lemma ExpandableSelf(s: Shape)
    ensures Expandable(s, s)
  {
  }

  /** One step of `ExpandSource`: the block the outer index selects, then the offset
      inside it. */
  lemma ExpandSourceUnfold(i: nat, from: Shape, to: Shape)
    requires Expandable(from, to) && i < Prod(to) && |from| > 0
    ensures Expandable(from[1..], to[1..]) && Prod(to[1..]) > 0
    ensures i % Prod(to[1..]) < Prod(to[1..])
    ensures ExpandSource(i, from, to) ==
      (if from[0] == 1 then 0 else i / Prod(to[1..])) * Prod(from[1..]) +
      ExpandSource(i % Prod(to[1..]), from[1..], to[1..])
  {
    ExpandableTail(from, to);
    assert Prod(to) == to[0] * Prod(to[1..]);
    DivBound(i, to[0], Prod(to[1..]));
  }

  /** Expanding a shape onto itself reads every element in place. */
  lemma {:induction false} ExpandSourceSelf(i: nat, s: Shape)
    requires i < Prod(s)
    ensures Expandable(s, s) && ExpandSource(i, s, s) == i
    decreases |s|
  {
    if |s| > 0 {
      var b := Prod(s[1..]);
      assert Prod(s) == s[0] * b;
      DivBound(i, s[0], b);
      var q, r := i / b, i % b;
      assert s[0] == 1 ==> q == 0;
      calc {
        ExpandSource(i, s, s);
      == { ExpandSourceUnfold(i, s, s); }
        q * b + ExpandSource(r, s[1..], s[1..]);
      == { ExpandSourceSelf(r, s[1..]); }
        q * b + r;
      == { DivMod(i, b); }
        i;
      }
    }
  }

  /** Every element of `v` is an element of `t`: `v` only rearranges or repeats `t`. */
  predicate ElementsFrom(v: Tensor, t: Tensor)
  {
    forall k :: 0 <= k < |v.data| ==> v.data[k] in t.data
  }

  /** `expand` to a shape of the same rank; a RuntimeError unless every axis keeps its
      size or grows from 1. */
  function ExpandTo(t: Tensor, target: Shape): (r: Result<Tensor>)
    requires t.Valid()
    ensures r.Ok? <==> Expandable(t.shape, target)
    ensures r.Err? ==> r.error == RuntimeError
    ensures r.Ok? ==> r.value.Valid() && r.value.shape == target
    ensures r.Ok? ==> ElementsFrom(r.value, t)
  {
    if Expandable(t.shape, target) then
      Ok(Tensor(target, seq(Prod(target), i requires 0 <= i < Prod(target) =>
        t.data[ExpandSource(i, t.shape, target)])))
    else
      Err(RuntimeError)
  }

  /** Expanding a tensor to its own shape leaves it unchanged. */
  lemma ExpandToSelf(t: Tensor)
    requires t.Valid()
    ensures ExpandTo(t, t.shape) == Ok(t)
  {
    ExpandableSelf(t.shape);
    var r := ExpandTo(t, t.shape).value;
    forall i | 0 <= i < |t.data|
      ensures r.data[i] == t.data[i]
    {
      ExpandSourceSelf(i, t.shape);
    }
    assert r.data == t.data;
  }

  /** Broadcasting a tensor to `target` as `torch.broadcast_tensors` does: leading axes of
      size 1 are added, then the tensor is expanded. */
  function BroadcastTo(t: Tensor, target: Shape): (r: Result<Tensor>)
    requires t.Valid()
    ensures r.Ok? <==> BroadcastsTo(t.shape, target)
    ensures r.Err? ==> r.error == RuntimeError
    ensures r.Ok? ==> r.value.Valid() && r.value.shape == target
    ensures r.Ok? ==> ElementsFrom(r.value, t)
  {
    if |t.shape| > |target| then Err(RuntimeError)
    else ExpandTo(Tensor(PadLeft(t.shape, |target|), t.data), target)
  }

  /** The input index an `expand` reads for output index `ix`: an axis of size 1 is always
      read at 0, every other axis at the output's own index. */
  function ExpandIndex(from: Shape, ix: seq<nat>): (jx: seq<nat>)
    requires |ix| == |from|
    ensures |jx| == |from|
    ensures forall k :: 0 <= k < |from| ==> jx[k] == if from[k] == 1 then 0 else ix[k]
  {
    seq(|ix|, k requires 0 <= k < |ix| => if from[k] == 1 then 0 else ix[k])
  }

  /** The index an `expand` reads lies inside the input's shape. */
  lemma ExpandIndexInBounds(from: Shape, to: Shape, ix: seq<nat>)
    requires Expandable(from, to) && InBounds(to, ix)
    ensures InBounds(from, ExpandIndex(from, ix))
  {
  }

  /** `ExpandSource` reads, for the output element at `ix`, the input element at
      `ExpandIndex(from, ix)`. */
  lemma {:induction false} ExpandSourceAt(from: Shape, to: Shape, ix: seq<nat>)
    requires Expandable(from, to) && InBounds(to, ix)
    ensures InBounds(from, ExpandIndex(from, ix))
    ensures ExpandSource(Offset(to, ix), from, to) == Offset(from, ExpandIndex(from, ix))
    decreases |from|
  {
    ExpandIndexInBounds(from, to, ix);
    if |from| > 0 {
      var jx := ExpandIndex(from, ix);
      var bt, bf := Prod(to[1..]), Prod(from[1..]);
      var o := Offset(to[1..], ix[1..]);
      assert InBounds(to[1..], ix[1..]);
      ExpandSourceUnfold(Offset(to, ix), from, to);
      DivModOf(ix[0], o, bt);
      ExpandSourceAt(from[1..], to[1..], ix[1..]);
      assert jx[1..] == ExpandIndex(from[1..], ix[1..]);
    }
  }

  /** Entry `ix` of an `expand` is the input's entry with every size-1 axis read at 0: each
      input entry is copied along the axes that grow from 1. */
  lemma ExpandAt(t: Tensor, target: Shape, ix: seq<nat>)
    requires t.Valid() && Expandable(t.shape, target) && InBounds(target, ix)
    ensures ExpandTo(t, target).Ok? && InBounds(t.shape, ExpandIndex(t.shape, ix))
    ensures Entry(ExpandTo(t, target).value, ix) == Entry(t, ExpandIndex(t.shape, ix))
  {
    ExpandSourceAt(t.shape, target, ix);
  }

  /** The input index that broadcasting to `target` reads for output index `ix`: the padded
      leading axes are dropped, then the size-1 axes are read at 0. */
  function BroadcastIndex(s: Shape, ix: seq<nat>): (jx: seq<nat>)
    requires |s| <= |ix|
    ensures |jx| == |s|
  {
    ExpandIndex(s, ix[|ix| - |s|..])
  }

  /** Leading size-1 axes indexed at 0 do not move any position. */
  lemma {:induction false} OffsetPadded(s: Shape, n: nat, jx: seq<nat>)
    requires |s| <= n && InBounds(s, jx)
    ensures InBounds(PadLeft(s, n), seq(n - |s|, _ => 0) + jx)
    ensures Offset(PadLeft(s, n), seq(n - |s|, _ => 0) + jx) == Offset(s, jx)
  {
    var zs: seq<nat> := seq(n - |s|, _ => 0);
    assert InBounds(Ones(n - |s|), zs);
    OffsetConcat(Ones(n - |s|), s, zs, jx);
    OffsetZeros(n - |s|);
  }

  lemma {:induction false} OffsetZeros(n: nat)
    ensures InBounds(Ones(n), seq(n, _ => 0))
    ensures Offset(Ones(n), seq(n, _ => 0)) == 0
  {
    var zs: seq<nat> := seq(n, _ => 0);
    assert InBounds(Ones(n), zs);
    if n > 0 {
      assert Ones(n)[1..] == Ones(n - 1) && zs[1..] == seq(n - 1, _ => 0);
      OffsetZeros(n - 1);
    }
  }

  /** The trailing indices of an index into `target` lie inside every shape that broadcasts
      to it once its size-1 axes are read at 0. */
  lemma BroadcastIndexInBounds(s: Shape, target: Shape, ix: seq<nat>)
    requires BroadcastsTo(s, target) && InBounds(target, ix)
    ensures InBounds(s, BroadcastIndex(s, ix))
  {
    var d := |target| - |s|;
    var p := PadLeft(s, |target|);
    var tx := ix[d..];
    forall k | 0 <= k < |s|
      ensures tx[k] < s[k] || s[k] == 1
    {
      assert p[d + k] == s[k] && tx[k] == ix[d + k];
    }
  }

  /** Reading the padded shape at `ix` reads the leading padded axes at 0 and the original
      axes at `BroadcastIndex`. */
  lemma BroadcastIndexPadded(s: Shape, target: Shape, ix: seq<nat>)
    requires BroadcastsTo(s, target) && InBounds(target, ix)
    ensures ExpandIndex(PadLeft(s, |target|), ix) == seq(|target| - |s|, _ => 0) + BroadcastIndex(s, ix)
  {
    var d := |target| - |s|;
    var p := PadLeft(s, |target|);
    var ex, jx := ExpandIndex(p, ix), ExpandIndex(s, ix[d..]);
    var zs: seq<nat> := seq(d, _ => 0);
    assert p == Ones(d) + s;
    forall k | 0 <= k < |target|
      ensures ex[k] == (zs + jx)[k]
    {
      if k < d {
        assert p[k] == 1;
      } else {
        assert p[k] == s[k - d] && ix[d..][k - d] == ix[k];
      }
    }
  }

  /** Entry `ix` of a tensor broadcast to `target` is the input's entry at the trailing
      indices, with every size-1 axis read at 0. */
  lemma BroadcastAt(t: Tensor, target: Shape, ix: seq<nat>)
    requires t.Valid() && BroadcastsTo(t.shape, target) && InBounds(target, ix)
    ensures BroadcastTo(t, target).Ok? && InBounds(t.shape, BroadcastIndex(t.shape, ix))
    ensures Entry(BroadcastTo(t, target).value, ix) == Entry(t, BroadcastIndex(t.shape, ix))
  {
    var n := |target|;
    ExpandAt(Tensor(PadLeft(t.shape, n), t.data), target, ix);
    BroadcastIndexInBounds(t.shape, target, ix);
    BroadcastIndexPadded(t.shape, target, ix);
    OffsetPadded(t.shape, n, BroadcastIndex(t.shape, ix));
  }

  /** `xs` written out `n` times one after another. */
  function Repeat(xs: seq<real>, n: nat): (r: seq<real>)
    ensures |r| == n * |xs|
  {
    if n == 0 then [] else xs + Repeat(xs, n - 1)
  }

  /** Every copy inside a repetition is the original sequence. */
  lemma {:induction false} RepeatCopies(xs: seq<real>, n: nat, k: nat)
    requires k < n
    ensures k * |xs| + |xs| <= n * |xs|
    ensures Repeat(xs, n)[k * |xs|..k * |xs| + |xs|] == xs
  {
    MulLeMono(k + 1, n, |xs|);
    if k > 0 {
      RepeatCopies(xs, n - 1, k - 1);
      var rest := Repeat(xs, n - 1);
      assert Repeat(xs, n)[|xs|..] == rest;
      assert Repeat(xs, n)[k * |xs|..k * |xs| + |xs|] == rest[(k - 1) * |xs|..(k - 1) * |xs| + |xs|];
    }
  }

  /** Repeating `n` times multiplies the sum by `n`. */
  lemma {:induction false} RepeatSum(xs: seq<real>, n: nat)
    ensures Sum(Repeat(xs, n)) == n as real * Sum(xs)
  {
    if n > 0 {
      SumConcat(xs, Repeat(xs, n - 1));
      RepeatSum(xs, n - 1);
      RealMulSucc(n, Sum(xs));
    }
  }

  lemma RealMulSucc(n: nat, x: real)
    requires n > 0
    ensures n as real * x == x + (n - 1) as real * x
  {
  }

  /** `repeat(n, 1, ..., 1)` of a tensor whose first axis has size 1: the first axis
      becomes `n` long and every slice along it is the original tensor's content. */
  function RepeatFirst(t: Tensor, n: nat): (r: Tensor)
    requires t.Valid() && |t.shape| > 0 && t.shape[0] == 1
    ensures r.Valid()
    ensures r.shape == [n] + t.shape[1..]
    ensures forall k :: 0 <= k < n ==>
      |t.data| * k + |t.data| <= |r.data| && r.data[|t.data| * k..|t.data| * k + |t.data|] == t.data
  {
    var r := Tensor([n] + t.shape[1..], Repeat(t.data, n));
    assert Prod(r.shape) == n * Prod(t.shape[1..]);
    forall k | 0 <= k < n
      ensures |t.data| * k + |t.data| <= |r.data|
      ensures r.data[|t.data| * k..|t.data| * k + |t.data|] == t.data
    {
      RepeatCopies(t.data, n, k);
    }
    r
  }

  /** The sums of the `n` consecutive blocks of length `b` of `d`. */
  function BlockSums(d: seq<real>, n: nat, b: nat): (r: seq<real>)
    requires |d| == n * b
    ensures |r| == n
  {
    if n == 0 then []
    else
      MulSucc(n, b);
      [Sum(d[..b])] + BlockSums(d[b..], n - 1, b)
  }

  /** Entry `i` of the block sums is the sum of the `i`-th block. */
  lemma {:induction false} BlockSumsAt(d: seq<real>, n: nat, b: nat, i: nat)
    requires |d| == n * b && i < n
    ensures i * b + b <= |d|
    ensures BlockSums(d, n, b)[i] == Sum(d[i * b..i * b + b])
  {
    RowBound(i, n, b);
    if i > 0 {
      var tail, j := d[b..], (i - 1) * b;
      assert |tail| == (n - 1) * b && i * b == b + j by {
        MulSucc(n, b);
        MulSucc(i, b);
      }
      BlockSumsAt(tail, n - 1, b, i - 1);
      assert BlockSums(d, n, b)[i] == BlockSums(tail, n - 1, b)[i - 1];
      assert tail[j..j + b] == d[i * b..i * b + b];
    }
  }

  /** Summing blocks keeps the grand total. */
  lemma {:induction false} BlockSumsTotal(d: seq<real>, n: nat, b: nat)
    requires |d| == n * b
    ensures Sum(BlockSums(d, n, b)) == Sum(d)
  {
    if n > 0 {
      MulSucc(n, b);
      var head, tail := d[..b], d[b..];
      assert |tail| == (n - 1) * b;
      BlockSumsTotal(tail, n - 1, b);
      assert d == head + tail;
      SumConcat(head, tail);
    }
  }

  /** Block sums of a concatenation are the concatenated block sums. */
  lemma {:induction false} BlockSumsConcat(d1: seq<real>, n1: nat, d2: seq<real>, n2: nat, b: nat)
    requires |d1| == n1 * b && |d2| == n2 * b
    ensures |d1 + d2| == (n1 + n2) * b
    ensures BlockSums(d1 + d2, n1 + n2, b) == BlockSums(d1, n1, b) + BlockSums(d2, n2, b)
  {
    MulAdd(n1, n2, b);
    if n1 > 0 {
      MulSucc(n1, b);
      MulSucc(n1 + n2, b);
      MulAdd(n1 - 1, n2, b);
      var tail := d1[b..];
      assert |tail| == (n1 - 1) * b;
      assert (d1 + d2)[..b] == d1[..b];
      assert (d1 + d2)[b..] == tail + d2;
      BlockSumsConcat(tail, n1 - 1, d2, n2, b);
    } else {
      assert d1 + d2 == d2;
    }
  }

  /** The first block sum, then the block sums of the rest. */
  lemma BlockSumsFirst(d: seq<real>, n: nat, b: nat)
    requires |d| == n * b && n > 0
    ensures b <= |d| && |d[b..]| == (n - 1) * b
    ensures BlockSums(d, n, b) == [Sum(d[..b])] + BlockSums(d[b..], n - 1, b)
  {
    MulSucc(n, b);
  }

  /** Summing blocks of `b`, then blocks of `m` of those sums, is summing blocks of `m * b`. */
  lemma {:induction false} BlockSumsNest(d: seq<real>, p: nat, m: nat, b: nat)
    requires |d| == p * m * b
    ensures |d| == (p * m) * b && |d| == p * (m * b)
    ensures BlockSums(BlockSums(d, p * m, b), p, m) == BlockSums(d, p, m * b)
  {
    MulAssoc(p, m, b);
    if p > 0 {
      NestLengths(p, m, b);
      BlockSumsNest(d[m * b..], p - 1, m, b);
      BlockSumsSplit(d, p, m, b);
      BlockSumsNestStep(d, p, m, b, m * b, p * m, (p - 1) * m);
    }
  }

  /** One step of `BlockSumsNest`, with the products named: the first `mb == m * b`
      elements, then the rest by hypothesis. */
  lemma BlockSumsNestStep(d: seq<real>, p: nat, m: nat, b: nat, mb: nat, pm: nat, qm: nat)
    requires p > 0 && pm == p * m && qm == (p - 1) * m && mb == m * b && pm == m + qm && mb <= |d|
    requires |d| == pm * b && |d| == p * mb && |d[mb..]| == qm * b && |d[mb..]| == (p - 1) * mb
    requires |d[..mb]| == m * b
    requires BlockSums(d, pm, b)[..m] == BlockSums(d[..mb], m, b)
    requires BlockSums(d, pm, b)[m..] == BlockSums(d[mb..], qm, b)
    requires BlockSums(BlockSums(d[mb..], qm, b), p - 1, m) == BlockSums(d[mb..], p - 1, mb)
    ensures BlockSums(BlockSums(d, pm, b), p, m) == BlockSums(d, p, mb)
  {
    var head, tail := d[..mb], d[mb..];
    var inner := BlockSums(d, pm, b);
    var hs, ts := BlockSums(head, m, b), BlockSums(tail, qm, b);
    calc {
      BlockSums(inner, p, m);
    == { BlockSumsFirst(inner, p, m); }
      [Sum(inner[..m])] + BlockSums(inner[m..], p - 1, m);
    == { assert inner[..m] == hs && inner[m..] == ts; }
      [Sum(hs)] + BlockSums(ts, p - 1, m);
    == { BlockSumsTotal(head, m, b); }
      [Sum(head)] + BlockSums(tail, p - 1, mb);
    == { BlockSumsFirst(d, p, mb); }
      BlockSums(d, p, mb);
    }
  }

  lemma NestLengths(p: nat, m: nat, b: nat)
    requires p > 0
    ensures p * m * b == m * b + (p - 1) * m * b
    ensures (p - 1) * m * b == (p - 1) * (m * b)
    ensures p * m == m + (p - 1) * m
  {
    MulSucc(p, m * b);
    MulAssoc(p, m, b);
    MulAssoc(p - 1, m, b);
    MulSucc(p, m);
  }

  /** The block sums of `p * m` blocks, cut after the first `m`. */
  lemma BlockSumsSplit(d: seq<real>, p: nat, m: nat, b: nat)
    requires |d| == p * m * b && p > 0
    ensures m * b <= |d| && |d[m * b..]| == (p - 1) * m * b && m <= p * m
    ensures BlockSums(d, p * m, b)[..m] == BlockSums(d[..m * b], m, b)
    ensures BlockSums(d, p * m, b)[m..] == BlockSums(d[m * b..], (p - 1) * m, b)
  {
    NestLengths(p, m, b);
    var head, tail := d[..m * b], d[m * b..];
    assert d == head + tail;
    BlockSumsConcat(head, m, tail, (p - 1) * m, b);
  }

  /** `sum(dim=-1)`: sums out the last axis. */
  function SumLastAxis(t: Tensor): (r: Tensor)
    requires t.Valid() && |t.shape| > 0
    ensures r.Valid() && r.shape == t.shape[..|t.shape| - 1]
    ensures Sum(r.data) == Sum(t.data)
  {
    var n := |t.shape|;
    ProdLast(t.shape);
    BlockSumsTotal(t.data, Prod(t.shape[..n - 1]), t.shape[n - 1]);
    Tensor(t.shape[..n - 1], BlockSums(t.data, Prod(t.shape[..n - 1]), t.shape[n - 1]))
  }

  /** The sum over every axis from `k` on, as one block sum per position of the first `k`
      axes; the tensor itself when it has no axis `k`. */
  function SumTrailing(t: Tensor, k: nat): (r: Tensor)
    requires t.Valid()
    ensures r.Valid()
    ensures r.shape == if k < |t.shape| then t.shape[..k] else t.shape
    ensures Sum(r.data) == Sum(t.data)
  {
    if k >= |t.shape| then t
    else
      ProdSplit(t.shape, k);
      BlockSumsTotal(t.data, Prod(t.shape[..k]), Prod(t.shape[k..]));
      Tensor(t.shape[..k], BlockSums(t.data, Prod(t.shape[..k]), Prod(t.shape[k..])))
  }

  /** Entry `i` of the sum over the axes from `k` on is the sum of the `i`-th block of
      `Prod(shape[k..])` consecutive elements. */
  lemma SumTrailingAt(t: Tensor, k: nat, i: nat)
    requires t.Valid() && k < |t.shape| && i < Prod(t.shape[..k])
    ensures i * Prod(t.shape[k..]) + Prod(t.shape[k..]) <= |t.data|
    ensures SumTrailing(t, k).data[i] == Sum(t.data[i * Prod(t.shape[k..])..i * Prod(t.shape[k..]) + Prod(t.shape[k..])])
  {
    ProdSplit(t.shape, k);
    BlockSumsAt(t.data, Prod(t.shape[..k]), Prod(t.shape[k..]), i);
  }

  /** Summing the last remaining axis after summing every axis from `k` on is summing
      every axis from `k - 1` on. */
  lemma SumLastAxisOfTrailing(t: Tensor, k: nat)
    requires t.Valid() && 0 < k <= |t.shape|
    ensures SumLastAxis(SumTrailing(t, k)) == SumTrailing(t, k - 1)
  {
    var s := t.shape;
    var p, m := Prod(s[..k - 1]), s[k - 1];
    assert s[..k][..k - 1] == s[..k - 1];
    ProdLast(s[..k]);
    ProdSplit(s, k - 1);
    assert s[k - 1..] == [m] + s[k..];
    ProdConcat([m], s[k..]);
    if k == |s| {
      assert s[k..] == [];
    } else {
      var b := Prod(s[k..]);
      ProdSplit(s, k);
      assert |t.data| == p * m * b;
      BlockSumsNest(t.data, p, m, b);
    }
  }

  /** Slice `k` of `d` cut into slices of `m` elements. */
  function Slice(d: seq<real>, n: nat, m: nat, k: nat): (r: seq<real>)
    requires |d| == n * m && k < n
    ensures |r| == m && k * m + m <= |d| && r == d[k * m..k * m + m]
  {
    RowBound(k, n, m);
    d[k * m..k * m + m]
  }

  /** Element `y` of slice `k` is element `k * m + y` of the whole. */
  lemma SliceAt(d: seq<real>, n: nat, m: nat, k: nat, y: nat, py: nat)
    requires |d| == n * m && k < n && y < m && py == k * m + y
    ensures py < |d| && Slice(d, n, m, k)[y] == d[py]
  {
    OffsetBound(k, y, n, m);
  }

  /** The rows `idx` (each `b` long) of a block of `a` rows, in the order of `idx`. */
  function GatherRows(block: seq<real>, a: nat, b: nat, idx: seq<nat>): (r: seq<real>)
    requires |block| == a * b
    requires forall j :: 0 <= j < |idx| ==> idx[j] < a
    ensures |r| == |idx| * b
  {
    Collections.FlattenLength(RowList(block, a, b, idx), b);
    Collections.Flatten(RowList(block, a, b, idx))
  }

  /** The rows `idx` of a block of `a` rows of `b` elements, one sequence per row. */
  function RowList(block: seq<real>, a: nat, b: nat, idx: seq<nat>): (r: seq<seq<real>>)
    requires |block| == a * b
    requires forall j :: 0 <= j < |idx| ==> idx[j] < a
    ensures |r| == |idx| && forall j :: 0 <= j < |idx| ==> r[j] == Slice(block, a, b, idx[j])
  {
    seq(|idx|, j requires 0 <= j < |idx| => Slice(block, a, b, idx[j]))
  }

  /** Every block of `d` with the rows `idx` gathered, one sequence per block. */
  function BlockList(d: seq<real>, o: nat, blockLen: nat, a: nat, b: nat, idx: seq<nat>): (r: seq<seq<real>>)
    requires blockLen == a * b && |d| == o * blockLen
    requires forall j :: 0 <= j < |idx| ==> idx[j] < a
    ensures |r| == o && forall p :: 0 <= p < o ==> r[p] == GatherRows(Slice(d, o, blockLen, p), a, b, idx)
  {
    seq(o, p requires 0 <= p < o => GatherRows(Slice(d, o, blockLen, p), a, b, idx))
  }

  /** For each of `o` consecutive blocks of `a` rows of length `b` (`blockLen == a * b`
      elements each), the rows `idx`. */
  function GatherData(d: seq<real>, o: nat, blockLen: nat, a: nat, b: nat, idx: seq<nat>): (r: seq<real>)
    requires blockLen == a * b && |d| == o * blockLen
    requires forall j :: 0 <= j < |idx| ==> idx[j] < a
    ensures |r| == o * (|idx| * b)
  {
    Collections.FlattenLength(BlockList(d, o, blockLen, a, b, idx), |idx| * b);
    Collections.Flatten(BlockList(d, o, blockLen, a, b, idx))
  }

  /** Element `q` of gathered row `j` is element `q` of row `idx[j]` of the block. */
  lemma GatherRowsAt(block: seq<real>, a: nat, b: nat, idx: seq<nat>, j: nat, q: nat)
    requires |block| == a * b
    requires forall k :: 0 <= k < |idx| ==> idx[k] < a
    requires j < |idx| && q < b
    ensures j * b + q < |idx| * b && idx[j] * b + q < a * b
    ensures GatherRows(block, a, b, idx)[j * b + q] == block[idx[j] * b + q]
  {
    OffsetBound(j, q, |idx|, b);
    OffsetBound(idx[j], q, a, b);
    GatherRowsSlice(block, a, b, idx, j, q);
    SliceAt(block, a, b, idx[j], q, idx[j] * b + q);
  }

  /** Element `q` of gathered row `j` is element `q` of slice `idx[j]`. */
  lemma GatherRowsSlice(block: seq<real>, a: nat, b: nat, idx: seq<nat>, j: nat, q: nat)
    requires |block| == a * b
    requires forall k :: 0 <= k < |idx| ==> idx[k] < a
    requires j < |idx| && q < b
    ensures j * b + q < |idx| * b
    ensures GatherRows(block, a, b, idx)[j * b + q] == Slice(block, a, b, idx[j])[q]
  {
    OffsetBound(j, q, |idx|, b);
    var rows := RowList(block, a, b, idx);
    Collections.FlattenAt(rows, b, j, q);
  }

  /** Element `x` of block `p` of `GatherData` (`x` being element `q` of gathered row `j`)
      is element `y` of block `p` of the input (element `q` of row `idx[j]`); `ab` and `n`
      are the block lengths before and after, `px` and `py` the flat positions. */
  lemma GatherDataAt(d: seq<real>, o: nat, a: nat, b: nat, idx: seq<nat>, ab: nat, n: nat,
                     p: nat, j: nat, q: nat, x: nat, y: nat, px: nat, py: nat)
    requires ab == a * b && n == |idx| * b && |d| == o * ab
    requires forall k :: 0 <= k < |idx| ==> idx[k] < a
    requires p < o && j < |idx| && q < b && x == j * b + q && y == idx[j] * b + q
    requires px == p * n + x && py == p * ab + y
    ensures x < n && y < ab && px < o * n && py < |d|
    ensures GatherData(d, o, ab, a, b, idx)[px] == d[py]
  {
    OffsetBound(j, q, |idx|, b);
    OffsetBound(idx[j], q, a, b);
    OffsetBound(p, x, o, n);
    OffsetBound(p, y, o, ab);
    var blocks := BlockList(d, o, ab, a, b, idx);
    var slice := Slice(d, o, ab, p);
    Collections.FlattenAt(blocks, n, p, x);
    GatherRowsAt(slice, a, b, idx, j, q);
    assert blocks[p][x] == GatherRows(slice, a, b, idx)[x];
    SliceAt(d, o, ab, p, y, py);
  }

  /** Indexing axis `axis` with the index list `idx` (`t[:, idx]` for axis 1): that axis
      becomes `|idx|` long and holds the selected slices in the order of `idx`. */
  function Gather(t: Tensor, axis: nat, idx: seq<nat>): (r: Tensor)
    requires t.Valid() && axis < |t.shape|
    requires forall j :: 0 <= j < |idx| ==> idx[j] < t.shape[axis]
    ensures r.Valid()
    ensures r.shape == t.shape[axis := |idx|]
  {
    var s := t.shape;
    var o, b := Prod(s[..axis]), Prod(s[axis + 1..]);
    ProdSplit(s, axis);
    assert s[axis..] == [s[axis]] + s[axis + 1..];
    var s' := s[axis := |idx|];
    ProdSplit(s', axis);
    assert s'[..axis] == s[..axis];
    assert s'[axis..] == [|idx|] + s[axis + 1..];
    Tensor(s', GatherData(t.data, o, s[axis] * b, s[axis], b, idx))
  }

  /** Each entry of the gathered tensor is the entry of `t` whose index along `axis` is
      the listed position `idx[ix[axis]]`, every other index being the same. */
  lemma GatherAt(t: Tensor, axis: nat, idx: seq<nat>, ix: seq<nat>)
    requires t.Valid() && axis < |t.shape|
    requires forall j :: 0 <= j < |idx| ==> idx[j] < t.shape[axis]
    requires InBounds(t.shape[axis := |idx|], ix)
    ensures InBounds(t.shape, ix[axis := idx[ix[axis]]])
    ensures Entry(Gather(t, axis, idx), ix) == Entry(t, ix[axis := idx[ix[axis]]])
  {
    var s := t.shape;
    var s' := s[axis := |idx|];
    var j := ix[axis];
    var ix' := ix[axis := idx[j]];
    assert InBounds(s, ix');
    var o, a, b := Prod(s[..axis]), s[axis], Prod(s[axis + 1..]);
    OffsetSplit(s', ix, axis);
    OffsetSplit(s, ix', axis);
    assert s'[..axis] == s[..axis] && s'[axis + 1..] == s[axis + 1..];
    assert ix'[..axis] == ix[..axis] && ix'[axis + 1..] == ix[axis + 1..];
    var pre, q := Offset(s[..axis], ix[..axis]), Offset(s[axis + 1..], ix[axis + 1..]);
    ProdSplit(s, axis);
    assert s[axis..] == [a] + s[axis + 1..];
    assert |t.data| == o * (a * b);
    MulLeMono(0, j, b);
    MulLeMono(0, idx[j], b);
    GatherDataAt(t.data, o, a, b, idx, a * b, |idx| * b, pre, j, q, j * b + q, idx[j] * b + q,
                 Offset(s', ix), Offset(s, ix'));
  }

  /** Indexing axis `axis` with an integer array of shape `shape` (its positions `pos`
      listed in row-major order): the axis is replaced by the array's axes, and the
      elements are those of `Gather` with the positions in that order. */
  function Take(t: Tensor, axis: nat, shape: Shape, pos: seq<nat>): (r: Tensor)
    requires t.Valid() && axis < |t.shape| && |pos| == Prod(shape)
    requires forall j :: 0 <= j < |pos| ==> pos[j] < t.shape[axis]
    ensures r.Valid() && r.shape == t.shape[..axis] + shape + t.shape[axis + 1..]
    ensures r.data == Gather(t, axis, pos).data
  {
    var s := t.shape;
    var g := Gather(t, axis, pos);
    var o, b := Prod(s[..axis]), Prod(s[axis + 1..]);
    ProdSplit(g.shape, axis);
    assert g.shape[..axis] == s[..axis];
    assert g.shape[axis..] == [|pos|] + s[axis + 1..];
    ProdConcat([|pos|], s[axis + 1..]);
    ProdConcat(s[..axis], shape);
    ProdConcat(s[..axis] + shape, s[axis + 1..]);
    MulAssoc(o, |pos|, b);
    Tensor(s[..axis] + shape + s[axis + 1..], g.data)
  }

  /** With a one-dimensional index array, `Take` is `Gather`. */
  lemma TakeGather(t: Tensor, axis: nat, pos: seq<nat>)
    requires t.Valid() && axis < |t.shape|
    requires forall j :: 0 <= j < |pos| ==> pos[j] < t.shape[axis]
    ensures |pos| == Prod([|pos|])
    ensures Take(t, axis, [|pos|], pos) == Gather(t, axis, pos)
  {
    ProdPair(|pos|, 1);
    assert [|pos|] == [|pos|] + [];
    assert t.shape[..axis] + [|pos|] + t.shape[axis + 1..] == t.shape[axis := |pos|];
  }

  /** `t[i]` along axis `axis` for one index: the axis is removed. */
  function Select(t: Tensor, axis: nat, i: nat): (r: Tensor)
    requires t.Valid() && axis < |t.shape| && i < t.shape[axis]
    ensures r.Valid()
    ensures r.shape == t.shape[..axis] + t.shape[axis + 1..]
  {
    var g := Gather(t, axis, [i]);
    ProdSplit(g.shape, axis);
    assert g.shape[axis..] == [1] + t.shape[axis + 1..];
    assert g.shape[..axis] == t.shape[..axis];
    ProdConcat(t.shape[..axis], t.shape[axis + 1..]);
    Tensor(t.shape[..axis] + t.shape[axis + 1..], g.data)
  }

  /** Entry `ix` of `t[i]` along `axis` is the entry of `t` with `i` put back at `axis`. */
  lemma SelectAt(t: Tensor, axis: nat, i: nat, ix: seq<nat>)
    requires t.Valid() && axis < |t.shape| && i < t.shape[axis]
    requires InBounds(t.shape[..axis] + t.shape[axis + 1..], ix)
    ensures axis <= |ix| && InBounds(t.shape, ix[..axis] + [i] + ix[axis..])
    ensures Entry(Select(t, axis, i), ix) == Entry(t, ix[..axis] + [i] + ix[axis..])
  {
    var s := t.shape;
    var a, c := s[..axis], s[axis + 1..];
    var ia, ic := ix[..axis], ix[axis..];
    assert ix == ia + ic;
    assert InBounds(a, ia) && InBounds(c, ic);
    var g := Gather(t, axis, [i]);
    var jx := ia + [0] + ic;
    assert g.shape == a + [1] + c;
    assert jx[axis := i] == ia + [i] + ic;
    assert Offset(g.shape, jx) == Offset(a + c, ix) by {
      UnitAxisOffset(a, c, ia, ic);
    }
    assert Entry(g, jx) == Entry(t, ia + [i] + ic) by {
      GatherAt(t, axis, [i], jx);
    }
  }

  /** `t[n]`: the `n`-th slice along the first axis. */
  function Row(t: Tensor, n: nat): (r: Tensor)
    requires t.Valid() && |t.shape| > 0 && n < t.shape[0]
    ensures r.Valid() && r.shape == t.shape[1..]
    ensures n * |r.data| + |r.data| <= |t.data|
    ensures r.data == t.data[n * |r.data|..n * |r.data| + |r.data|]
  {
    var b := Prod(t.shape[1..]);
    assert |t.data| == t.shape[0] * b;
    RowBound(n, t.shape[0], b);
    Tensor(t.shape[1..], t.data[n * b..n * b + b])
  }

  /** Entry `rest` of `t[n]` is entry `[n] + rest` of `t`. */
  lemma RowAt(t: Tensor, n: nat, rest: seq<nat>)
    requires t.Valid() && |t.shape| > 0 && n < t.shape[0] && InBounds(t.shape[1..], rest)
    ensures InBounds(t.shape, [n] + rest)
    ensures Entry(Row(t, n), rest) == Entry(t, [n] + rest)
  {
    var ix := [n] + rest;
    assert ix[0] == n && ix[1..] == rest;
    assert InBounds(t.shape, ix);
    var b, k := Prod(t.shape[1..]), Offset(t.shape[1..], rest);
    OffsetBound(n, k, t.shape[0], b);
    assert Offset(t.shape, ix) == n * b + k;
  }

  /** The tensors' element sequences. */
  function AllData(ts: seq<Tensor>): seq<seq<real>>
  {
    seq(|ts|, i requires 0 <= i < |ts| => ts[i].data)
  }

  /** `torch.cat([x.unsqueeze(0) for x in ts], dim=0)`: stacks tensors of one shape along a
      new first axis; a RuntimeError for no tensors or for differing shapes. */
  function Stack(ts: seq<Tensor>): (r: Result<Tensor>)
    requires forall i :: 0 <= i < |ts| ==> ts[i].Valid()
    ensures r.Ok? <==> |ts| > 0 && forall i :: 0 <= i < |ts| ==> ts[i].shape == ts[0].shape
    ensures r.Err? ==> r.error == RuntimeError
    ensures r.Ok? ==> r.value.Valid() && r.value.shape == [|ts|] + ts[0].shape
    ensures r.Ok? ==> r.value.data == Collections.Flatten(AllData(ts))
  {
    if |ts| == 0 || exists i :: 0 <= i < |ts| && ts[i].shape != ts[0].shape then
      Err(RuntimeError)
    else
      StackLength(ts, ts[0].shape);
      Ok(Tensor([|ts|] + ts[0].shape, Collections.Flatten(AllData(ts))))
  }

  /** Stacked tensors of one shape hold `|ts|` times that shape's element count. */
  lemma {:induction false} StackLength(ts: seq<Tensor>, s: Shape)
    requires forall i :: 0 <= i < |ts| ==> ts[i].Valid() && ts[i].shape == s
    ensures Collections.TotalLength(AllData(ts)) == |ts| * Prod(s)
  {
    if |ts| > 0 {
      assert AllData(ts)[1..] == AllData(ts[1..]);
      StackLength(ts[1..], s);
    }
  }

  /** Entry `[n] + rest` of the stacked tensor is entry `rest` of tensor `n`. */
  lemma StackAt(ts: seq<Tensor>, n: nat, rest: seq<nat>)
    requires forall i :: 0 <= i < |ts| ==> ts[i].Valid()
    requires Stack(ts).Ok? && n < |ts| && InBounds(ts[n].shape, rest)
    ensures InBounds(Stack(ts).value.shape, [n] + rest)
    ensures Entry(Stack(ts).value, [n] + rest) == Entry(ts[n], rest)
  {
    var s := ts[0].shape;
    var st := Stack(ts).value;
    var ix := [n] + rest;
    assert st.shape[1..] == s && ix[1..] == rest && ix[0] == n;
    assert InBounds(st.shape, ix);
    var m, k := Prod(s), Offset(s, rest);
    assert Offset(st.shape, ix) == n * m + k;
    var all := AllData(ts);
    assert forall i :: 0 <= i < |all| ==> |all[i]| == m;
    Collections.FlattenAt(all, m, n, k);
  }
}
