/** The remaining tensor-shaping functions of `brancher/utilities.py`: folding the sample
    and datapoint axes of parent values into one batch axis, extracting the diagonals of a
    batch of matrices, coercing user data to tensors, and tiling a parameter along the
    sample axis. */
module Reshaping {
  import opened Wrappers
  import opened Shapes
  import opened Tensors
  import opened Data
  import opened Utilities

  // ---------------------------------------------------------------------------------
  // broadcast_parent_values

  /** The result of `broadcast_parent_values`: the folded values under their names, and the
      sample and datapoint sizes that were folded together. */
  datatype Flattened = Flattened(params: TensorParams, numberSamples: nat, numberDatapoints: nat)

  /** The values of parameters that are all torch tensors. */
  function TensorsOf(p: Params): (r: seq<Tensor>)
    requires forall i :: 0 <= i < |p| ==> p[i].1.TorchTensor?
    ensures |r| == |p| && forall i :: 0 <= i < |p| ==> r[i] == p[i].1.t
  {
    seq(|p|, i requires 0 <= i < |p| => p[i].1.t)
  }

  /** Folding the first two axes into one keeps the element count. */
  lemma FoldedProd(s: Shape)
    requires |s| >= 2
    ensures Prod([s[0] * s[1]] + s[2..]) == Prod(s)
  {
    ProdConcat([s[0] * s[1]], s[2..]);
    ProdSplit(s, 2);
    assert s[..2] == [s[0], s[1]];
    ProdPair(s[0], s[1]);
    assert [s[0] * s[1]][1..] == [];
  }

  /** `view` of a tensor with its sample and datapoint axes folded into one batch axis;
      viewing back to the original shape gives the tensor back. */
  function FoldBatch(t: Tensor): (r: Tensor)
    requires t.Valid() && |t.shape| >= 2
    ensures r.Valid() && r.shape == [t.shape[0] * t.shape[1]] + t.shape[2..]
    ensures View(r, t.shape) == Ok(t)
  {
    FoldedProd(t.shape);
    View(t, [t.shape[0] * t.shape[1]] + t.shape[2..]).value
  }

  /** Every tensor with its first two axes folded. */
  function FoldEach(bs: seq<Tensor>): (r: seq<Tensor>)
    requires ValidTensors(bs) && HasBatchAxes(bs)
    ensures |r| == |bs| && forall i :: 0 <= i < |bs| ==> r[i] == FoldBatch(bs[i])
  {
    seq(|bs|, i requires 0 <= i < |bs| => FoldBatch(bs[i]))
  }

  /** `broadcast_parent_values`: broadcasts the parent values on their sample and datapoint
      axes and folds those two axes into one. An empty dict cannot be unpacked (ValueError);
      a value that is not a torch tensor fails the tensor assertion; the other errors are
      those of `partial_broadcast`. */
  function BroadcastParentValues(parents: Params): (r: Result<Flattened>)
    requires AllValid(parents)
    ensures |parents| == 0 ==> r == Err(ValueError)
    ensures |parents| > 0 && (exists i :: 0 <= i < |parents| && !parents[i].1.TorchTensor?) ==>
      r == Err(AssertionError)
    ensures r.Ok? <==> (|parents| > 0 && (forall i :: 0 <= i < |parents| ==> parents[i].1.TorchTensor?) &&
      HasBatchAxes(TensorsOf(parents)) && LeadingAgree(TensorsOf(parents)))
    ensures r.Err? ==> r.error in {ValueError, AssertionError, IndexError, RuntimeError}
    ensures r.Ok? ==> KeyList(r.value.params) == KeyList(parents)
    ensures r.Ok? ==> r.value.numberSamples == MaxAxis(TensorsOf(parents), 0)
    ensures r.Ok? ==> r.value.numberDatapoints == MaxAxis(TensorsOf(parents), 1)
  {
    if |parents| == 0 then Err(ValueError)
    else if exists i :: 0 <= i < |parents| && !parents[i].1.TorchTensor? then Err(AssertionError)
    else
      var vs := TensorsOf(parents);
      assert ValidTensors(vs);
      var bs :- PartialBroadcast(vs);
      var ns, nd := bs[0].shape[0], bs[0].shape[1];
      FoldedShapes(vs, bs);
      Ok(Flattened(Zip(KeyList(parents), FoldEach(bs)), ns, nd))
  }

  /** Each folded value has one batch axis of `number_samples * number_datapoints` entries
      followed by the event axes of the value it was given. */
  lemma BroadcastParentValuesShape(parents: Params, i: nat)
    requires AllValid(parents) && BroadcastParentValues(parents).Ok? && i < |parents|
    ensures parents[i].1.TorchTensor?
    ensures var f := BroadcastParentValues(parents).value;
      f.params[i].1.Valid() && f.params[i].1.shape == [f.numberSamples * f.numberDatapoints] + parents[i].1.t.shape[2..]
  {
    var vs := TensorsOf(parents);
    var bs := PartialBroadcast(vs).value;
    FoldedShapes(vs, bs);
    var f := Flattened(Zip(KeyList(parents), FoldEach(bs)), bs[0].shape[0], bs[0].shape[1]);
    assert BroadcastParentValues(parents) == Ok(f);
    assert f.params[i].1 == FoldBatch(bs[i]);
  }

  /** The tensors `partial_broadcast` makes, folded, have one batch axis of the largest sample
      size times the largest datapoint size, followed by their own event axes. */
  lemma FoldedShapes(vs: seq<Tensor>, bs: seq<Tensor>)
    requires ValidTensors(vs) && PartialBroadcast(vs) == Ok(bs)
    ensures |bs| > 0 && HasBatchAxes(bs) && ValidTensors(bs)
    ensures bs[0].shape[0] == MaxAxis(vs, 0) && bs[0].shape[1] == MaxAxis(vs, 1)
    ensures forall i :: 0 <= i < |vs| ==>
      FoldBatch(bs[i]).shape == [MaxAxis(vs, 0) * MaxAxis(vs, 1)] + vs[i].shape[2..]
  {
  }

  /** A folded value holds `number_samples * number_datapoints` times as many elements as
      its event shape. */
  lemma BroadcastParentValuesCount(parents: Params, i: nat)
    requires AllValid(parents) && BroadcastParentValues(parents).Ok? && i < |parents|
    ensures parents[i].1.TorchTensor?
    ensures var f := BroadcastParentValues(parents).value;
      |f.params[i].1.data| == f.numberSamples * f.numberDatapoints * Prod(parents[i].1.t.shape[2..])
  {
    BroadcastParentValuesShape(parents, i);
    var f := BroadcastParentValues(parents).value;
    ProdConcat([f.numberSamples * f.numberDatapoints], parents[i].1.t.shape[2..]);
    assert [f.numberSamples * f.numberDatapoints][1..] == [];
  }

  /** Unfolding the batch axis of a value of `broadcast_parent_values` back into samples and
      datapoints gives the value `partial_broadcast` made. */
  lemma BroadcastParentValuesUnfold(parents: Params, i: nat)
    requires AllValid(parents) && BroadcastParentValues(parents).Ok? && i < |parents|
    ensures parents[i].1.TorchTensor?
    ensures PartialBroadcast(TensorsOf(parents)).Ok?
    ensures var f := BroadcastParentValues(parents).value;
      View(f.params[i].1, [f.numberSamples, f.numberDatapoints] + parents[i].1.t.shape[2..])
        == Ok(PartialBroadcast(TensorsOf(parents)).value[i])
  {
    var vs := TensorsOf(parents);
    var bs := PartialBroadcast(vs).value;
    var f := Flattened(Zip(KeyList(parents), FoldEach(bs)), bs[0].shape[0], bs[0].shape[1]);
    assert BroadcastParentValues(parents) == Ok(f);
    assert f.params[i].1 == FoldBatch(bs[i]);
    assert bs[i].shape == [f.numberSamples, f.numberDatapoints] + parents[i].1.t.shape[2..];
  }

  // ---------------------------------------------------------------------------------
  // get_diagonal

  /** The `view` to `(dim1 * dim2, m, m)` of a shape `(dim1, dim2, m, k)` keeps the element
      count exactly when the matrices are square or there are no elements to keep. */
  predicate SquareOrEmpty(s: Shape)
    requires |s| == 4
  {
    s[3] == s[2] || s[0] * s[1] * s[2] == 0
  }

  lemma SquareView(s: Shape)
    requires |s| == 4
    ensures Prod([s[0] * s[1], s[2], s[2]]) == Prod(s) <==> SquareOrEmpty(s)
  {
    var b := s[0] * s[1];
    var a := b * s[2];
    ProdSplit(s, 2);
    assert s[..2] == [s[0], s[1]] && s[2..] == [s[2], s[3]];
    ProdPair(s[0], s[1]);
    ProdPair(s[2], s[3]);
    var v := [b, s[2], s[2]];
    ProdConcat([b], [s[2], s[2]]);
    assert v == [b] + [s[2], s[2]] && [b][1..] == [];
    ProdPair(s[2], s[2]);
    MulAssoc(b, s[2], s[3]);
    MulAssoc(b, s[2], s[2]);
    assert Prod(s) == a * s[3] && Prod(v) == a * s[2];
    if a > 0 && s[3] != s[2] {
      MulNe(a, s[3], s[2]);
    }
  }

  lemma MulNe(a: nat, x: nat, y: nat)
    requires a > 0 && x != y
    ensures a * x != a * y
  {
    if x < y {
      MulLeMono(x + 1, y, a);
    } else {
      MulLeMono(y + 1, x, a);
    }
  }

  /** Position in a batch of `n` matrices of size `m × m` of the `(p % m)`-th diagonal element
      of matrix `p / m`. */
  function DiagonalPosition(p: nat, n: nat, m: nat): (q: nat)
    requires p < n * m
    ensures q < n * (m * m)
    ensures m > 0 && q == (p / m) * (m * m) + (p % m) * m + p % m
  {
    DivBound(p, n, m);
    DiagonalBound(p / m, p % m, n, m);
    (p / m) * (m * m) + (p % m) * m + p % m
  }

  /** Element `j` of the diagonal of matrix `a` lies inside `n` matrices of size `m × m`. */
  lemma DiagonalBound(a: nat, j: nat, n: nat, m: nat)
    requires a < n && j < m
    ensures a * (m * m) + j * m + j < n * (m * m)
  {
    MulLeMono(j + 1, m, m);
    assert (j + 1) * m == j * m + m;
    RowBound(a, n, m * m);
  }

  /** The diagonals of `n` matrices of size `m × m` stored one after another. */
  function Diagonals(d: seq<real>, n: nat, m: nat): (r: seq<real>)
    requires |d| == n * (m * m)
  {
    seq(n * m, p requires 0 <= p < n * m => d[DiagonalPosition(p, n, m)])
  }

  /** Element `j` of the diagonal of matrix `a`. */
  lemma DiagonalsAt(d: seq<real>, n: nat, m: nat, a: nat, j: nat)
    requires |d| == n * (m * m) && a < n && j < m
    ensures a * m + j < n * m && DiagonalPosition(a * m + j, n, m) == a * (m * m) + j * m + j
    ensures Diagonals(d, n, m)[a * m + j] == d[a * (m * m) + j * m + j]
  {
    OffsetBound(a, j, n, m);
    DivModOf(a, j, m);
  }

  /** `get_diagonal`: for a tensor of shape `(dim1, dim2, m, m)`, the diagonal of every
      `m × m` matrix, as a tensor of shape `(dim1, dim2, m)`. Anything but a rank-4 torch
      tensor fails the assertions; matrices that are not square make the `view` raise.
      When `dim1 * dim2 * m` is 0 the index lists are empty, `np.array([])` has a float
      dtype, and torch refuses float index arrays with an IndexError. */
  function GetDiagonal(x: PyData): (r: Result<Tensor>)
    requires x.Valid()
    ensures !(x.TorchTensor? && |x.t.shape| == 4) ==> r == Err(AssertionError)
    ensures x.TorchTensor? && |x.t.shape| == 4 ==>
      (r.Ok? <==> x.t.shape[3] == x.t.shape[2] && x.t.shape[0] * x.t.shape[1] * x.t.shape[2] > 0)
    ensures x.TorchTensor? && |x.t.shape| == 4 && x.t.shape[0] * x.t.shape[1] * x.t.shape[2] == 0 ==>
      r == Err(IndexError)
    ensures r.Err? ==> r.error in {AssertionError, RuntimeError, IndexError}
    ensures r.Ok? ==> r.value.Valid() && r.value.shape == x.t.shape[..3]
  {
    if !x.TorchTensor? || |x.t.shape| != 4 then Err(AssertionError)
    else
      var s := x.t.shape;
      SquareView(s);
      var v :- View(x.t, [s[0] * s[1], s[2], s[2]]);
      if s[0] * s[1] * s[2] == 0 then Err(IndexError)
      else
        ProdThree(s[0] * s[1], s[2], s[2]);
        MatrixBatchProd(s);
        Ok(Tensor(s[..3], Diagonals(v.data, s[0] * s[1], s[2])))
  }

  /** The elements of `get_diagonal`'s result are the diagonals of the input's matrices. */
  lemma GetDiagonalData(x: PyData)
    requires x.Valid() && x.TorchTensor? && |x.t.shape| == 4 && GetDiagonal(x).Ok?
    ensures |x.t.data| == x.t.shape[0] * x.t.shape[1] * (x.t.shape[2] * x.t.shape[2])
    ensures GetDiagonal(x).value.data == Diagonals(x.t.data, x.t.shape[0] * x.t.shape[1], x.t.shape[2])
  {
    var s := x.t.shape;
    SquareView(s);
    ProdThree(s[0] * s[1], s[2], s[2]);
  }

  /** The shape `(dim1, dim2, m)` holds one element per diagonal entry. */
  lemma MatrixBatchProd(s: Shape)
    requires |s| == 4
    ensures Prod(s[..3]) == s[0] * s[1] * s[2]
  {
    assert s[..3] == [s[0], s[1], s[2]];
    ProdThree(s[0], s[1], s[2]);
    MulAssoc(s[0], s[1], s[2]);
  }

  /** Element `(i, k, j)` of `get_diagonal`'s result is element `(i, k, j, j)` of its input. */
  lemma GetDiagonalAt(x: PyData, i: nat, k: nat, j: nat)
    requires x.Valid() && x.TorchTensor? && |x.t.shape| == 4 && GetDiagonal(x).Ok?
    requires i < x.t.shape[0] && k < x.t.shape[1] && j < x.t.shape[2]
    ensures InBounds(GetDiagonal(x).value.shape, [i, k, j]) && InBounds(x.t.shape, [i, k, j, j])
    ensures Entry(GetDiagonal(x).value, [i, k, j]) == Entry(x.t, [i, k, j, j])
  {
    var s := x.t.shape;
    var r := GetDiagonal(x).value;
    var n, m := s[0] * s[1], s[2];
    var a := i * s[1] + k;
    OffsetBound(i, k, s[0], s[1]);
    assert n * m >= 1 by {
      MulLeMono(1, s[0], s[1]);
      MulLeMono(1, n, m);
    }
    GetDiagonalData(x);
    assert s[3] == m;
    assert InBounds(r.shape, [i, k, j]);
    assert Offset(r.shape, [i, k, j]) == a * m + j by {
      OffsetThree(r.shape, i, k, j);
      NestedIndex(i, k, s[1], m);
    }
    assert Offset(s, [i, k, j, j]) == a * (m * m) + j * m + j by {
      OffsetFour(s, i, k, j, j);
      NestedIndex(i, k, s[1], m * m);
    }
    DiagonalsAt(x.t.data, n, m, a, j);
  }

  /** Block `k` of row `i` of rows of `b` blocks of size `c` starts at `(i * b + k) * c`. */
  lemma NestedIndex(i: nat, k: nat, b: nat, c: nat)
    ensures (i * b + k) * c == i * (b * c) + k * c
  {
    MulAdd(i * b, k, c);
    MulAssoc(i, b, c);
  }

  // ---------------------------------------------------------------------------------
  // coerce_to_dtype

  /** The inputs `coerce_to_dtype` turns into tensors: torch tensors, numpy arrays that
      `torch.tensor` can convert (not those of Python objects), and numbers whose type is
      `float` or `int` or derives from `np.floating` or `np.signedinteger` (so not `bool`
      and not unsigned numpy integers). */
  predicate Numeric(x: PyData)
  {
    x.TorchTensor? || (x.NdArray? && x.dtype != ObjectDType) ||
    (x.Number? && (x.numberKind.PyFloat? || x.numberKind.PyInt? || x.numberKind.NumpyFloating? ||
                   x.numberKind.NumpySignedInteger?))
  }

  /** The tensor a numeric input becomes before its axes are adjusted: a number becomes a
      `1 × 1` tensor. */
  function Converted(x: PyData): (t: Tensor)
    requires x.Valid() && Numeric(x)
    ensures t.Valid()
    ensures x.TorchTensor? ==> t == x.t
    ensures x.NdArray? ==> t == x.a
    ensures x.Number? ==> t.shape == [1, 1] && t.data == [x.x]
  {
    if x.TorchTensor? then x.t
    else if x.NdArray? then x.a
    else
      ProdPair(1, 1);
      Tensor([1, 1], [x.x])
  }

  /** `view` of a tensor with `k` trailing axes of size 1 added. */
  function PadOnes(t: Tensor, k: nat): (r: Tensor)
    requires t.Valid()
    ensures r.Valid() && r.shape == t.shape + Ones(k) && r.data == t.data
  {
    ProdConcat(t.shape, Ones(k));
    ProdOnes(k);
    View(t, t.shape + Ones(k)).value
  }

  /** `reformat_tensor`: observed data gets one new leading axis, and a result of rank 2 or 3
      is padded with trailing 1s to rank 4; latent data gets two new leading axes. */
  function Reformat(t: Tensor, observed: bool): (r: Tensor)
    requires t.Valid()
    ensures r.Valid() && r.data == t.data
    ensures observed ==> |r.shape| == if 1 <= |t.shape| <= 2 then 4 else |t.shape| + 1
    ensures observed ==> r.shape == [1] + t.shape + Ones(|r.shape| - |t.shape| - 1)
    ensures !observed ==> r.shape == [1, 1] + t.shape
  {
    var u := Unsqueeze(t, 0);
    assert u.shape == [1] + t.shape;
    if observed then
      assert Ones(0) == [];
      if |u.shape| == 2 then PadOnes(u, 2)
      else if |u.shape| == 3 then PadOnes(u, 1)
      else PadOnes(u, 0)
    else
      var w := Unsqueeze(u, 1);
      assert w.shape == [1, 1] + t.shape;
      w
  }

  /** `coerce_to_dtype`: numeric inputs become torch tensors with the sample and datapoint
      axes added, lists, sets, tuples, dicts and strings are returned as they are, and any
      other type is a TypeError (for an array of objects, the TypeError `torch.tensor`
      raises). */
  function CoerceToDtype(x: PyData, observed: bool): (r: Result<PyData>)
    requires x.Valid()
    ensures r.Ok? <==> Numeric(x) || IsDiscrete(x)
    ensures r.Err? ==> r.error == TypeError
    ensures IsDiscrete(x) ==> r == Ok(x)
    ensures Numeric(x) ==> r.Ok? && r.value.TorchTensor? && r.value.Valid()
    ensures Numeric(x) ==> r.value.t.data == Converted(x).data
    ensures Numeric(x) && observed ==>
      var s := Converted(x).shape;
      |r.value.t.shape| == (if 1 <= |s| <= 2 then 4 else |s| + 1) &&
      r.value.t.shape == [1] + s + Ones(|r.value.t.shape| - |s| - 1)
    ensures Numeric(x) && !observed ==> r.value.t.shape == [1, 1] + Converted(x).shape
  {
    if Numeric(x) then Ok(TorchTensor(Reformat(Converted(x), observed)))
    else if IsDiscrete(x) then Ok(x)
    else Err(TypeError)
  }

  /** A number becomes a `1 × 1 × 1 × 1` tensor holding it, observed or not. */
  lemma CoerceNumber(x: PyData, observed: bool)
    requires x.Number? && Numeric(x)
    ensures CoerceToDtype(x, observed) == Ok(TorchTensor(Tensor([1, 1, 1, 1], [x.x])))
  {
    var r := CoerceToDtype(x, observed).value.t;
    assert Ones(1) == [1];
    if observed {
      assert r.shape == [1] + [1, 1] + Ones(1);
    } else {
      assert r.shape == [1, 1] + [1, 1];
    }
    assert r.shape == [1, 1, 1, 1];
  }

  /** Coercion only adds axes of size 1: viewing the coerced tensor back to the shape it
      had gives it back. */
  lemma CoerceRoundTrip(x: PyData, observed: bool)
    requires x.Valid() && Numeric(x)
    ensures View(CoerceToDtype(x, observed).value.t, Converted(x).shape) == Ok(Converted(x))
  {
  }

  // ---------------------------------------------------------------------------------
  // tile_parameter

  /** `tile_parameter`: a tensor whose first axis already has `n` entries is returned as it
      is; one whose first axis has a single entry is repeated `n` times along it; anything
      else is a ValueError. A value that is not a torch tensor fails the assertion, and
      reading the first axis of a rank-0 tensor is an IndexError. */
  function TileParameter(x: PyData, n: nat): (r: Result<Tensor>)
    requires x.Valid()
    ensures !x.TorchTensor? ==> r == Err(AssertionError)
    ensures x.TorchTensor? && |x.t.shape| == 0 ==> r == Err(IndexError)
    ensures r.Ok? <==> x.TorchTensor? && |x.t.shape| > 0 && (x.t.shape[0] == n || x.t.shape[0] == 1)
    ensures r.Err? ==> r.error in {AssertionError, IndexError, ValueError}
    ensures r.Ok? ==> r.value.Valid() && r.value.shape == [n] + x.t.shape[1..]
    ensures r.Ok? && x.t.shape[0] == n ==> r.value == x.t
    ensures r.Ok? ==> forall k :: 0 <= k < n ==>
      Row(r.value, k) == Row(x.t, if x.t.shape[0] == n then k else 0)
  {
    if !x.TorchTensor? then Err(AssertionError)
    else if |x.t.shape| == 0 then Err(IndexError)
    else if x.t.shape[0] == n then
      assert x.t.shape == [n] + x.t.shape[1..];
      Ok(x.t)
    else if x.t.shape[0] == 1 then
      var r := RepeatFirst(x.t, n);
      RepeatFirstRows(x.t, n);
      Ok(r)
    else Err(ValueError)
  }

  /** Every slice of a repeated tensor along its first axis is the original's only slice. */
  lemma RepeatFirstRows(t: Tensor, n: nat)
    requires t.Valid() && |t.shape| > 0 && t.shape[0] == 1
    ensures forall k :: 0 <= k < n ==> Row(RepeatFirst(t, n), k) == Row(t, 0)
  {
    var r := RepeatFirst(t, n);
    var b := Prod(t.shape[1..]);
    assert |t.data| == b;
    assert r.shape[1..] == t.shape[1..];
    assert Row(t, 0).data == t.data by {
      assert t.data[0..b] == t.data;
    }
    forall k | 0 <= k < n
      ensures Row(r, k) == Row(t, 0)
    {
      assert Row(r, k).data == r.data[k * b..k * b + b];
      assert r.data[b * k..b * k + b] == t.data;
    }
  }

  /** Tiling an already tiled parameter to the same number of samples changes nothing. */
  lemma TileParameterIdempotent(x: PyData, n: nat)
    requires x.Valid() && TileParameter(x, n).Ok?
    ensures TileParameter(TorchTensor(TileParameter(x, n).value), n) == TileParameter(x, n)
  {
  }
}
