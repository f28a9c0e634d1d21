/** Resampling from an empirical distribution, `EmpiricalDistribution._get_sample` of
    `brancher/distributions.py`: the weights, the size of the dataset, the draw of distinct
    indices when none are given, and the selection of the indices from the dataset. */
module Empirical {
  import opened Wrappers
  import opened Shapes
  import opened Tensors
  import opened Data

  // ---------------------------------------------------------------------------------
  // Dataset size

  /** The axis that lists the datapoints of a tensor dataset: axis 1 of observed data
      (samples, datapoints, ...) and axis 2 of latent data. */
  function DatapointAxis(observed: bool): nat
  {
    if observed then 1 else 2
  }

  /** The dataset size: the datapoint axis of a tensor, `len` of anything else. `len` of a
      number, of a 0-d array or of an object without a length is a TypeError, and a tensor
      without the datapoint axis is an IndexError. */
  function DatasetSize(dataset: PyData, observed: bool): (r: Result<nat>)
    ensures dataset.TorchTensor? ==>
      (r.Ok? <==> DatapointAxis(observed) < |dataset.t.shape|) &&
      (r.Ok? ==> r.value == dataset.t.shape[DatapointAxis(observed)]) &&
      (r.Err? ==> r.error == IndexError)
    ensures dataset.Collection? ==> r == Ok(|dataset.items|)
    ensures dataset.Text? ==> r == Ok(|dataset.s|)
    ensures dataset.NdArray? ==> r == if |dataset.a.shape| > 0 then Ok(dataset.a.shape[0]) else Err(TypeError)
    ensures dataset.Number? || dataset.Other? ==> r == Err(TypeError)
  {
    match dataset
    case TorchTensor(t) =>
      var axis := DatapointAxis(observed);
      if axis < |t.shape| then Ok(t.shape[axis]) else Err(IndexError)
    case Collection(_, items) => Ok(|items|)
    case Text(s) => Ok(|s|)
    case NdArray(a, _) => if |a.shape| > 0 then Ok(a.shape[0]) else Err(TypeError)
    case _ => Err(TypeError)
  }

  // ---------------------------------------------------------------------------------
  // Drawing distinct indices

  predicate Distinct(xs: seq<nat>)
  {
    forall i, j :: 0 <= i < j < |xs| ==> xs[i] != xs[j]
  }

  /** `range(n)`. */
  function Range(n: nat): (r: seq<nat>)
    ensures |r| == n && forall i :: 0 <= i < n ==> r[i] == i
  {
    seq(n, i requires 0 <= i < n => i)
  }

  lemma RangeDistinct(n: nat)
    ensures Distinct(Range(n))
    ensures forall x: nat :: x in Range(n) <==> x < n
  {
    var r := Range(n);
    forall x: nat
      ensures x in r <==> x < n
    {
      if x < n {
        assert r[x] == x;
      }
    }
  }

  /** `xs` without its element at position `j`. */
  function Without(xs: seq<nat>, j: nat): (r: seq<nat>)
    requires j < |xs|
    ensures |r| == |xs| - 1
    ensures forall x :: x in r ==> x in xs
    ensures Distinct(xs) ==> Distinct(r) && xs[j] !in r
  {
    var r := xs[..j] + xs[j + 1..];
    assert forall i :: 0 <= i < |r| ==> r[i] == if i < j then xs[i] else xs[i + 1];
    r
  }

  /** Drawing without replacement, one element per roll: each roll chooses (modulo the
      number left) one of the elements not drawn yet. The rolls stand for the random number
      generator. */
  function Pick(pool: seq<nat>, rolls: seq<nat>): (r: seq<nat>)
    requires |rolls| <= |pool|
    ensures |r| == |rolls|
    ensures forall x :: x in r ==> x in pool
    ensures Distinct(pool) ==> Distinct(r)
  {
    if |rolls| == 0 then []
    else
      var j := rolls[0] % |pool|;
      var rest := Pick(Without(pool, j), rolls[1..]);
      [pool[j]] + rest
  }

  /** The first `batch` rolls, missing ones counting as 0. */
  function Pad(rolls: seq<nat>, batch: nat): (r: seq<nat>)
    ensures |r| == batch
    ensures |rolls| == batch ==> r == rolls
  {
    seq(batch, i requires 0 <= i < batch => if i < |rolls| then rolls[i] else 0)
  }

  /** `np.random.choice(pool, size=batch, replace=False)`, driven by `rolls` (missing rolls
      count as 0): `batch` elements of the pool, none drawn twice. */
  function Draw(pool: seq<nat>, batch: nat, rolls: seq<nat>): (r: seq<nat>)
    requires batch <= |pool|
    ensures |r| == batch
    ensures forall i :: 0 <= i < |r| ==> r[i] in pool
    ensures Distinct(pool) ==> Distinct(r)
  {
    Pick(pool, Pad(rolls, batch))
  }

  /** Position of `x` in `xs`. */
  function IndexOf(xs: seq<nat>, x: nat): (j: nat)
    requires x in xs
    ensures j < |xs| && xs[j] == x
  {
    if xs[0] == x then 0 else 1 + IndexOf(xs[1..], x)
  }

  /** Removing one position keeps every other element. */
  lemma WithoutKeeps(xs: seq<nat>, j: nat, x: nat)
    requires j < |xs| && x in xs && x != xs[j]
    ensures x in Without(xs, j)
  {
    var k := IndexOf(xs, x);
    var r := Without(xs, j);
    if k < j {
      assert r[k] == xs[k];
    } else {
      assert r[k - 1] == xs[k];
    }
  }

  /** Every sequence of distinct elements of the pool can be drawn. */
  lemma {:induction false} PickComplete(pool: seq<nat>, w: seq<nat>) returns (rolls: seq<nat>)
    requires Distinct(pool) && Distinct(w) && |w| <= |pool|
    requires forall i :: 0 <= i < |w| ==> w[i] in pool
    ensures |rolls| == |w| && Pick(pool, rolls) == w
  {
    if |w| == 0 {
      rolls := [];
    } else {
      var j := IndexOf(pool, w[0]);
      var rest := Without(pool, j);
      forall i | 0 <= i < |w[1..]|
        ensures w[1..][i] in rest
      {
        WithoutKeeps(pool, j, w[i + 1]);
      }
      var tail := w[1..];
      assert Distinct(tail) by {
        forall a, b | 0 <= a < b < |tail|
          ensures tail[a] != tail[b]
        {
          assert tail[a] == w[a + 1] && tail[b] == w[b + 1];
        }
      }
      var more := PickComplete(rest, tail);
      rolls := [j] + more;
      DivModOf(0, j, |pool|);
      assert rolls[0] % |pool| == j;
      assert rolls[1..] == more;
      assert Pick(pool, rolls) == [pool[j]] + Pick(rest, more);
      assert w == [w[0]] + tail;
      assert j % |pool| == j;
    }
  }

  /** Every batch of distinct elements of the pool is a possible draw. */
  lemma DrawComplete(pool: seq<nat>, w: seq<nat>) returns (rolls: seq<nat>)
    requires Distinct(pool) && Distinct(w) && |w| <= |pool|
    requires forall i :: 0 <= i < |w| ==> w[i] in pool
    ensures Draw(pool, |w|, rolls) == w
  {
    rolls := PickComplete(pool, w);
  }

  // ---------------------------------------------------------------------------------
  // Weights

  predicate Increasing(xs: seq<nat>)
  {
    forall i, j :: 0 <= i < j < |xs| ==> xs[i] < xs[j]
  }

  /** The positions of the true entries, in increasing order. */
  function TruePositions(bits: seq<bool>): (r: seq<nat>)
    ensures forall j :: 0 <= j < |r| ==> r[j] < |bits| && bits[r[j]]
    ensures Increasing(r)
  {
    if |bits| == 0 then []
    else
      var r := TruePositions(bits[..|bits| - 1]);
      assert forall j :: 0 <= j < |r| ==> bits[..|bits| - 1][r[j]] == bits[r[j]];
      if bits[|bits| - 1] then r + [|bits| - 1] else r
  }

  /** Every true position is listed. */
  lemma {:induction false} TruePositionsComplete(bits: seq<bool>, i: nat)
    requires i < |bits| && bits[i]
    ensures i in TruePositions(bits)
  {
    var init := bits[..|bits| - 1];
    if i < |bits| - 1 {
      assert init[i] == bits[i];
      TruePositionsComplete(init, i);
    }
  }

  /** The positions of the nonzero weights. */
  function NonzeroPositions(w: seq<real>): seq<nat>
  {
    TruePositions(seq(|w|, i requires 0 <= i < |w| => w[i] != 0.0))
  }

  /** A position is listed exactly when its weight is nonzero; the list is increasing. */
  lemma NonzeroPositionsMembers(w: seq<real>)
    ensures Increasing(NonzeroPositions(w)) && Distinct(NonzeroPositions(w))
    ensures forall i: nat :: i in NonzeroPositions(w) <==> i < |w| && w[i] != 0.0
  {
    var bits := seq(|w|, i requires 0 <= i < |w| => w[i] != 0.0);
    forall i: nat | i < |w| && w[i] != 0.0
      ensures i in NonzeroPositions(w)
    {
      TruePositionsComplete(bits, i);
    }
  }

  /** `np.array(weights).astype("float64")`: a number becomes a 0-d array, a list or tuple
      of numbers a one-dimensional array, and arrays and tensors keep their elements. A set,
      a dict or another object cannot be converted to floats (a TypeError); a string, or a
      list or tuple holding something other than numbers, is a ValueError. */
  function WeightsOf(w: PyData): (r: Result<Tensor>)
    requires w.Valid()
    ensures r.Ok? ==> r.value.Valid()
    ensures r.Ok? <==> (w.TorchTensor? || w.NdArray? || w.Number? ||
      (w.Collection? && w.collectionKind in {PyList, PyTuple} &&
       forall i :: 0 <= i < |w.items| ==> w.items[i].Number?))
    ensures r.Err? ==> r.error == if w.Text? || (w.Collection? && w.collectionKind in {PyList, PyTuple})
                                 then ValueError else TypeError
    ensures r.Ok? && w.Collection? ==> (r.value.shape == [|w.items|] && |r.value.data| == |w.items| &&
      forall i :: 0 <= i < |w.items| ==> r.value.data[i] == w.items[i].x)
  {
    match w
    case TorchTensor(t) => Ok(t)
    case NdArray(a, _) => Ok(a)
    case Number(_, x) => Ok(Tensor([], [x]))
    case Collection(kind, items) =>
      if kind !in {PyList, PyTuple} then Err(TypeError)
      else if forall i :: 0 <= i < |items| ==> items[i].Number? then
        ProdSingle(|items|);
        Ok(Tensor([|items|], seq(|items|, i requires 0 <= i < |items| => items[i].x)))
      else Err(ValueError)
    case Text(_) => Err(ValueError)
    case Other(_) => Err(TypeError)
  }

  /** The positions `np.random.choice(range(size), size=batch, replace=False, p=p / sum(p))`
      can draw: those of nonzero weight. numpy refuses weights (a ValueError) that are not
      one-dimensional, not one per position, not normalisable (zero sum), negative once
      normalised, or with fewer nonzero entries than the batch. */
  function Support(p: Tensor, size: nat, batch: nat): (r: Result<seq<nat>>)
    requires p.Valid()
    ensures r.Ok? <==> (|p.shape| == 1 && |p.data| == size && Sum(p.data) != 0.0 &&
      (forall i :: 0 <= i < size ==> p.data[i] / Sum(p.data) >= 0.0) &&
      |NonzeroPositions(p.data)| >= batch)
    ensures r.Err? ==> r.error == ValueError
    ensures r.Ok? ==> r.value == NonzeroPositions(p.data)
  {
    if |p.shape| != 1 || |p.data| != size || Sum(p.data) == 0.0 then Err(ValueError)
    else if exists i :: 0 <= i < size && p.data[i] / Sum(p.data) < 0.0 then Err(ValueError)
    else if |NonzeroPositions(p.data)| < batch then Err(ValueError)
    else Ok(NonzeroPositions(p.data))
  }

  /** What the draw chooses from: every position without weights, the positions of nonzero
      weight with them. */
  function Pool(p: Option<Tensor>, size: nat, batch: nat): (r: Result<seq<nat>>)
    requires p.Some? ==> p.value.Valid()
    requires batch <= size
    ensures p.None? ==> r == Ok(Range(size))
    ensures p.Some? ==> r == Support(p.value, size, batch)
    ensures r.Ok? ==> batch <= |r.value| && Distinct(r.value)
    ensures r.Ok? ==> forall x: nat :: x in r.value <==> x < size && (p.None? || p.value.data[x] != 0.0)
  {
    match p
    case None =>
      RangeDistinct(size);
      Ok(Range(size))
    case Some(t) =>
      NonzeroPositionsMembers(t.data);
      Support(t, size, batch)
  }

  // ---------------------------------------------------------------------------------
  // Indices

  /** `isinstance(x, (int, np.int32, np.int64))`: Python integers and booleans (`bool`
      derives from `int`) and numpy's 32- and 64-bit signed integers; numpy's other
      widths and its unsigned integers derive from neither. */
  predicate IsIndexInt(x: PyData)
  {
    x.Number? && (x.numberKind.PyInt? || x.numberKind.PyBool? ||
      (x.numberKind.NumpySignedInteger? && x.numberKind.bits in {32, 64}))
  }

  /** Any Python or numpy integer or boolean, as an item of an index list. */
  predicate IsIntegral(x: PyData)
  {
    x.Number? && (x.numberKind.PyInt? || x.numberKind.PyBool? ||
      x.numberKind.NumpySignedInteger? || x.numberKind.NumpyUnsignedInteger?)
  }

  predicate IsBool(x: PyData)
  {
    x.Number? && x.numberKind.PyBool?
  }

  /** An index along one axis as torch and numpy read it: integer positions laid out in an
      array of shape `shape` (a single integer has shape `[]`), or a boolean mask. */
  datatype AxisIndex =
    | Positions(shape: Shape, ids: seq<int>)
    | Mask(bits: seq<bool>)
  {
    predicate Valid() {
      Positions? ==> |ids| == Prod(shape)
    }
  }

  function IntsOf(xs: seq<real>): (r: seq<int>)
    ensures |r| == |xs| && forall i :: 0 <= i < |xs| ==> r[i] == xs[i].Floor
  {
    seq(|xs|, i requires 0 <= i < |xs| => xs[i].Floor)
  }

  /** How an index value reads along one axis. A non-empty list of booleans is a mask; a
      list of integers (booleans among them counting as 0 and 1) lists positions; a boolean
      array of rank 1 is a mask and an integer array of any rank lists positions in its
      shape; a single integer is one position. Boolean arrays of another rank,
      floating-point and object arrays, lists holding a non-integer, tuples, sets, dicts and
      anything else are not indices (an IndexError). */
  function AxisIndexOf(v: PyData): (r: Option<AxisIndex>)
    requires v.Valid()
    ensures r.Some? ==> r.value.Valid()
    ensures (v.Collection? && v.collectionKind == PyList && |v.items| > 0 &&
      forall i :: 0 <= i < |v.items| ==> IsBool(v.items[i])) ==>
      r == Some(Mask(seq(|v.items|, i requires 0 <= i < |v.items| => v.items[i].x != 0.0)))
    ensures (v.Collection? && v.collectionKind == PyList &&
      !(|v.items| > 0 && forall i :: 0 <= i < |v.items| ==> IsBool(v.items[i])) &&
      forall i :: 0 <= i < |v.items| ==> IsIntegral(v.items[i])) ==>
      r == Some(Positions([|v.items|], seq(|v.items|, i requires 0 <= i < |v.items| => v.items[i].x.Floor)))
    ensures (v.Collection? && v.collectionKind == PyList &&
      exists i :: 0 <= i < |v.items| && !IsIntegral(v.items[i])) ==> r.None?
    ensures v.Collection? && v.collectionKind != PyList ==> r.None?
    ensures v.NdArray? && v.dtype == BoolDType ==>
      r == if |v.a.shape| == 1 then Some(Mask(seq(|v.a.data|, i requires 0 <= i < |v.a.data| => v.a.data[i] != 0.0)))
           else None
    ensures v.NdArray? && v.dtype == IntDType ==> r == Some(Positions(v.a.shape, IntsOf(v.a.data)))
    ensures v.NdArray? && (v.dtype == FloatDType || v.dtype == ObjectDType) ==> r.None?
    ensures v.Number? ==> (r.Some? <==> IsIntegral(v) && !IsBool(v))
    ensures v.Text? || v.Other? || v.TorchTensor? ==> r.None?
  {
    match v
    case Number(_, x) =>
      if IsIntegral(v) && !IsBool(v) then
        assert Prod([]) == 1;
        Some(Positions([], [x.Floor]))
      else None
    case Collection(kind, items) =>
      if kind != PyList then None
      else if |items| > 0 && forall i :: 0 <= i < |items| ==> IsBool(items[i]) then
        Some(Mask(seq(|items|, i requires 0 <= i < |items| => items[i].x != 0.0)))
      else if forall i :: 0 <= i < |items| ==> IsIntegral(items[i]) then
        ProdSingle(|items|);
        Some(Positions([|items|], seq(|items|, i requires 0 <= i < |items| => items[i].x.Floor)))
      else None
    case NdArray(a, dtype) =>
      if dtype == BoolDType && |a.shape| == 1 then
        Some(Mask(seq(|a.data|, i requires 0 <= i < |a.data| => a.data[i] != 0.0)))
      else if dtype == IntDType then Some(Positions(a.shape, IntsOf(a.data)))
      else None
    case _ => None
  }

  /** An index into an axis of `size` entries, negative ones counting from the end; `None`
      when it is out of range (an IndexError). */
  function Normalize(i: int, size: nat): (r: Option<nat>)
    ensures r.Some? <==> -(size as int) <= i < size
    ensures r.Some? ==> r.value < size
    ensures r.Some? && i >= 0 ==> r.value == i
    ensures r.Some? && i < 0 ==> r.value + (-i) == size
  {
    if 0 <= i < size then Some(i)
    else if -(size as int) <= i < 0 then Some(i + size)
    else None
  }

  /** Every index normalised, or `None` when one is out of range. */
  function NormalizeAll(ids: seq<int>, size: nat): (r: Option<seq<nat>>)
    ensures r.Some? <==> forall j :: 0 <= j < |ids| ==> -(size as int) <= ids[j] < size
    ensures r.Some? ==> |r.value| == |ids| && forall j :: 0 <= j < |ids| ==>
      Normalize(ids[j], size) == Some(r.value[j])
  {
    if forall j :: 0 <= j < |ids| ==> -(size as int) <= ids[j] < size then
      Some(seq(|ids|, j requires 0 <= j < |ids| => Normalize(ids[j], size).value))
    else None
  }

  /** The shape an index gives the axis it replaces and the positions it picks, along an
      axis of `size` entries: integer positions normalised, or the true positions of a
      mask as long as the axis. `None` (an IndexError) for a position out of range or a
      mask of another length. */
  function Resolve(ix: AxisIndex, size: nat): (r: Option<(Shape, seq<nat>)>)
    requires ix.Valid()
    ensures r.Some? ==> |r.value.1| == Prod(r.value.0) && forall j :: 0 <= j < |r.value.1| ==> r.value.1[j] < size
    ensures ix.Positions? ==> (r.Some? <==> forall j :: 0 <= j < |ix.ids| ==> -(size as int) <= ix.ids[j] < size)
    ensures ix.Positions? && r.Some? ==> (r.value.0 == ix.shape &&
      forall j :: 0 <= j < |ix.ids| ==> Normalize(ix.ids[j], size) == Some(r.value.1[j]))
    ensures ix.Mask? ==> (r.Some? <==> |ix.bits| == size)
    ensures ix.Mask? && r.Some? ==> (r.value.0 == [|r.value.1|] && Increasing(r.value.1) &&
      forall i: nat :: i in r.value.1 <==> i < size && ix.bits[i])
  {
    match ix
    case Positions(shape, ids) =>
      (match NormalizeAll(ids, size)
       case None => None
       case Some(pos) => Some((shape, pos)))
    case Mask(bits) =>
      if |bits| != size then None
      else
        var pos := TruePositions(bits);
        ProdSingle(|pos|);
        forall i: nat | i < size && bits[i]
          ensures i in pos
        {
          TruePositionsComplete(bits, i);
        }
        var shape: Shape := [|pos|];
        Some((shape, pos))
  }

  // ---------------------------------------------------------------------------------
  // Selection from a tensor dataset

  /** Axis `axis` of `t` indexed with `index`, every other axis whole: the axis is replaced
      by the index's shape and holds the entries it picks. */
  function SelectAxis(t: Tensor, axis: nat, index: PyData): (r: Result<Tensor>)
    requires t.Valid() && axis < |t.shape| && index.Valid()
    ensures r.Ok? <==> AxisIndexOf(index).Some? && Resolve(AxisIndexOf(index).value, t.shape[axis]).Some?
    ensures r.Err? ==> r.error == IndexError
    ensures r.Ok? ==> var sel := Resolve(AxisIndexOf(index).value, t.shape[axis]).value;
      r.value.Valid() && r.value.shape == t.shape[..axis] + sel.0 + t.shape[axis + 1..] &&
      r.value == Take(t, axis, sel.0, sel.1)
  {
    match AxisIndexOf(index)
    case None => Err(IndexError)
    case Some(ix) =>
      match Resolve(ix, t.shape[axis])
      case None => Err(IndexError)
      case Some(sel) => Ok(Take(t, axis, sel.0, sel.1))
  }

  /** Along a list of integer positions, entry `j` of the selected axis is entry
      `ids[j]` (counted from the end when negative) of the original axis. */
  lemma SelectAxisPositions(t: Tensor, axis: nat, index: PyData, ids: seq<int>, ix: seq<nat>)
    requires t.Valid() && axis < |t.shape| && index.Valid()
    requires AxisIndexOf(index) == Some(Positions([|ids|], ids))
    requires SelectAxis(t, axis, index).Ok?
    requires InBounds(SelectAxis(t, axis, index).value.shape, ix)
    ensures axis < |ix| && ix[axis] < |ids| && Normalize(ids[ix[axis]], t.shape[axis]).Some?
    ensures InBounds(t.shape, ix[axis := Normalize(ids[ix[axis]], t.shape[axis]).value])
    ensures Entry(SelectAxis(t, axis, index).value, ix) ==
      Entry(t, ix[axis := Normalize(ids[ix[axis]], t.shape[axis]).value])
  {
    var sel := Resolve(Positions([|ids|], ids), t.shape[axis]).value;
    var r := SelectAxis(t, axis, index).value;
    assert r.shape == t.shape[..axis] + [|ids|] + t.shape[axis + 1..];
    assert r.shape[axis] == |ids|;
    assert Normalize(ids[ix[axis]], t.shape[axis]) == Some(sel.1[ix[axis]]);
    TakeGather(t, axis, sel.1);
    GatherAt(t, axis, sel.1, ix);
  }

  /** Along a boolean mask, entry `j` of the selected axis is the `j`-th entry of the
      original axis whose mask bit is true. */
  lemma SelectAxisMask(t: Tensor, axis: nat, index: PyData, bits: seq<bool>, ix: seq<nat>)
    requires t.Valid() && axis < |t.shape| && index.Valid()
    requires AxisIndexOf(index) == Some(Mask(bits))
    requires SelectAxis(t, axis, index).Ok?
    requires InBounds(SelectAxis(t, axis, index).value.shape, ix)
    ensures |bits| == t.shape[axis] && axis < |ix| && ix[axis] < |TruePositions(bits)|
    ensures InBounds(t.shape, ix[axis := TruePositions(bits)[ix[axis]]])
    ensures Entry(SelectAxis(t, axis, index).value, ix) == Entry(t, ix[axis := TruePositions(bits)[ix[axis]]])
  {
    var pos := TruePositions(bits);
    var r := SelectAxis(t, axis, index).value;
    assert r.shape == t.shape[..axis] + [|pos|] + t.shape[axis + 1..];
    assert r.shape[axis] == |pos|;
    TakeGather(t, axis, pos);
    GatherAt(t, axis, pos, ix);
  }

  /** `dataset[:, indices, :]` (observed) or `dataset[:, :, indices, :]` (latent): the
      datapoint axis indexed with `indices`. The explicit trailing `:` needs one more axis
      after the datapoint axis (an IndexError otherwise). */
  function SelectDatapoints(t: Tensor, index: PyData, observed: bool): (r: Result<Tensor>)
    requires t.Valid() && index.Valid()
    ensures var axis := DatapointAxis(observed);
      r.Ok? <==> axis + 1 < |t.shape| && SelectAxis(t, axis, index).Ok?
    ensures r.Err? ==> r.error == IndexError
    ensures r.Ok? ==> r.value == SelectAxis(t, DatapointAxis(observed), index).value
  {
    var axis := DatapointAxis(observed);
    if axis + 1 >= |t.shape| then Err(IndexError) else SelectAxis(t, axis, index)
  }

  /** `dataset[n, k, :]` (observed) or `dataset[n, :, k, :]` (latent) for sample `n` and its
      index `k`: the datapoint axis of sample `n` indexed with `k`. */
  function SampleRows(t: Tensor, n: nat, k: PyData, observed: bool): (r: Result<Tensor>)
    requires t.Valid() && k.Valid()
    ensures var axis := DatapointAxis(observed);
      r.Ok? <==> axis + 1 < |t.shape| && n < t.shape[0] && SelectAxis(Row(t, n), axis - 1, k).Ok?
    ensures r.Err? ==> r.error == IndexError
    ensures r.Ok? ==> r.value == SelectAxis(Row(t, n), DatapointAxis(observed) - 1, k).value
  {
    var axis := DatapointAxis(observed);
    if axis + 1 >= |t.shape| || n >= t.shape[0] then Err(IndexError)
    else SelectAxis(Row(t, n), axis - 1, k)
  }

  /** Along a one-dimensional list of positions `ids` for sample `n`, the entries are those
      of sample `n` at the positions `ids` of the datapoint axis. */
  lemma SampleRowsAt(t: Tensor, n: nat, k: PyData, observed: bool, ids: seq<int>, ix: seq<nat>)
    requires t.Valid() && k.Valid()
    requires AxisIndexOf(k) == Some(Positions([|ids|], ids))
    requires SampleRows(t, n, k, observed).Ok?
    requires InBounds(SampleRows(t, n, k, observed).value.shape, ix)
    ensures var a := DatapointAxis(observed) - 1;
      a < |ix| && ix[a] < |ids| && Normalize(ids[ix[a]], t.shape[a + 1]).Some? &&
      InBounds(t.shape, [n] + ix[a := Normalize(ids[ix[a]], t.shape[a + 1]).value]) &&
      Entry(SampleRows(t, n, k, observed).value, ix) == Entry(t, [n] + ix[a := Normalize(ids[ix[a]], t.shape[a + 1]).value])
  {
    var a := DatapointAxis(observed) - 1;
    var row := Row(t, n);
    assert row.shape[a] == t.shape[a + 1];
    SelectAxisPositions(row, a, k, ids, ix);
    RowAt(t, n, ix[a := Normalize(ids[ix[a]], t.shape[a + 1]).value]);
  }

  /** The per-sample selections of a list of indices, in sample order. */
  function AllSampleRows(t: Tensor, rows: seq<PyData>, observed: bool): (r: Result<seq<Tensor>>)
    requires t.Valid() && forall n :: 0 <= n < |rows| ==> rows[n].Valid()
    ensures r.Ok? <==> forall n :: 0 <= n < |rows| ==> SampleRows(t, n, rows[n], observed).Ok?
    ensures r.Err? ==> r.error == IndexError
    ensures r.Ok? ==> (|r.value| == |rows| &&
      forall n :: 0 <= n < |rows| ==> r.value[n] == SampleRows(t, n, rows[n], observed).value)
  {
    if forall n :: 0 <= n < |rows| ==> SampleRows(t, n, rows[n], observed).Ok? then
      Ok(seq(|rows|, n requires 0 <= n < |rows| => SampleRows(t, n, rows[n], observed).value))
    else Err(IndexError)
  }

  /** How the selection code reads an `indices` value. Only a non-empty list is an index,
      and only its first element decides which kind: a numpy array makes it a list of
      per-sample indices, an integer (`int`, `np.int32`, `np.int64`) an index of
      datapoints. */
  datatype Indices =
    | PerSample(rows: seq<PyData>)
    | Datapoints(index: PyData)
    | NotIndices

  function IndicesOf(v: PyData): (r: Indices)
    ensures r.PerSample? <==> v.Collection? && v.collectionKind == PyList && |v.items| > 0 && v.items[0].NdArray?
    ensures r.Datapoints? <==> v.Collection? && v.collectionKind == PyList && |v.items| > 0 && IsIndexInt(v.items[0])
    ensures r.PerSample? ==> r.rows == v.items
    ensures r.Datapoints? ==> r.index == v
  {
    match v
    case Collection(PyList, items) =>
      if |items| == 0 then NotIndices
      else if items[0].NdArray? then PerSample(items)
      else if IsIndexInt(items[0]) then Datapoints(v)
      else NotIndices
    case _ => NotIndices
  }

  predicate IndicesValid(indices: Indices)
  {
    match indices
    case PerSample(rows) => forall n :: 0 <= n < |rows| ==> rows[n].Valid()
    case Datapoints(index) => index.Valid()
    case NotIndices => true
  }

  /** Indexing a tensor dataset: datapoints are selected for every sample, or sample `n`
      has its datapoints selected by its own index and the results are stacked (a
      RuntimeError when their shapes differ); anything else is an IndexError. */
  function SelectTensor(t: Tensor, indices: Indices, observed: bool): (r: Result<Tensor>)
    requires t.Valid() && IndicesValid(indices)
    ensures indices.NotIndices? ==> r == Err(IndexError)
    ensures indices.Datapoints? ==> r == SelectDatapoints(t, indices.index, observed)
    ensures r.Err? ==> r.error in {IndexError, RuntimeError}
    ensures r.Ok? && indices.PerSample? ==>
      AllSampleRows(t, indices.rows, observed).Ok? &&
      r == Stack(AllSampleRows(t, indices.rows, observed).value)
  {
    match indices
    case Datapoints(index) => SelectDatapoints(t, index, observed)
    case PerSample(rows) =>
      var pieces :- AllSampleRows(t, rows, observed);
      assert forall n :: 0 <= n < |pieces| ==> pieces[n].Valid();
      Stack(pieces)
    case NotIndices => Err(IndexError)
  }

  /** With per-sample indices, entry `[n] + ix` of the result is entry `ix` of sample
      `n`'s selection; for a list of positions `ids`, that is sample `n`'s entry at
      position `ids[j]` of the datapoint axis. */
  lemma SelectTensorPerSample(t: Tensor, rows: seq<PyData>, observed: bool, n: nat, ids: seq<int>, ix: seq<nat>)
    requires t.Valid() && IndicesValid(PerSample(rows))
    requires SelectTensor(t, PerSample(rows), observed).Ok? && n < |rows|
    requires AxisIndexOf(rows[n]) == Some(Positions([|ids|], ids))
    requires SampleRows(t, n, rows[n], observed).Ok?
    requires InBounds(SampleRows(t, n, rows[n], observed).value.shape, ix)
    ensures var a := DatapointAxis(observed) - 1;
      a < |ix| && ix[a] < |ids| && Normalize(ids[ix[a]], t.shape[a + 1]).Some? &&
      InBounds(SelectTensor(t, PerSample(rows), observed).value.shape, [n] + ix) &&
      InBounds(t.shape, [n] + ix[a := Normalize(ids[ix[a]], t.shape[a + 1]).value]) &&
      Entry(SelectTensor(t, PerSample(rows), observed).value, [n] + ix) ==
        Entry(t, [n] + ix[a := Normalize(ids[ix[a]], t.shape[a + 1]).value])
  {
    var pieces := AllSampleRows(t, rows, observed).value;
    assert forall i :: 0 <= i < |pieces| ==> pieces[i].Valid();
    StackAt(pieces, n, ix);
    SampleRowsAt(t, n, rows[n], observed, ids, ix);
  }

  /** With a list of integers, entry `ix` of the result is the entry of `t` at position
      `ids[j]` of the datapoint axis, `j` being `ix`'s position there. */
  lemma SelectTensorDatapoints(t: Tensor, index: PyData, observed: bool, ids: seq<int>, ix: seq<nat>)
    requires t.Valid() && index.Valid()
    requires AxisIndexOf(index) == Some(Positions([|ids|], ids))
    requires SelectTensor(t, Datapoints(index), observed).Ok?
    requires InBounds(SelectTensor(t, Datapoints(index), observed).value.shape, ix)
    ensures var a := DatapointAxis(observed);
      a < |ix| && ix[a] < |ids| && Normalize(ids[ix[a]], t.shape[a]).Some? &&
      InBounds(t.shape, ix[a := Normalize(ids[ix[a]], t.shape[a]).value]) &&
      Entry(SelectTensor(t, Datapoints(index), observed).value, ix) ==
        Entry(t, ix[a := Normalize(ids[ix[a]], t.shape[a]).value])
  {
    SelectAxisPositions(t, DatapointAxis(observed), index, ids, ix);
  }

  /** `items` are the booleans `bits`. */
  predicate BoolItems(items: seq<PyData>, bits: seq<bool>)
  {
    |items| == |bits| && forall i :: 0 <= i < |items| ==> IsBool(items[i]) && (bits[i] <==> items[i].x != 0.0)
  }

  /** A list of booleans given as datapoint indices is a mask over the datapoint axis. */
  lemma SelectTensorBoolList(t: Tensor, items: seq<PyData>, bits: seq<bool>, observed: bool, ix: seq<nat>)
    requires t.Valid() && Collection(PyList, items).Valid()
    requires |items| > 0 && BoolItems(items, bits)
    requires SelectTensor(t, IndicesOf(Collection(PyList, items)), observed).Ok?
    requires InBounds(SelectTensor(t, IndicesOf(Collection(PyList, items)), observed).value.shape, ix)
    ensures var a := DatapointAxis(observed);
      |bits| == t.shape[a] && a < |ix| && ix[a] < |TruePositions(bits)| &&
      InBounds(t.shape, ix[a := TruePositions(bits)[ix[a]]]) &&
      Entry(SelectTensor(t, IndicesOf(Collection(PyList, items)), observed).value, ix) ==
        Entry(t, ix[a := TruePositions(bits)[ix[a]]])
  {
    var v := Collection(PyList, items);
    assert IsIndexInt(items[0]);
    assert IndicesOf(v) == Datapoints(v);
    assert forall i :: 0 <= i < |items| ==> IsBool(items[i]);
    assert bits == seq(|items|, i requires 0 <= i < |items| => items[i].x != 0.0);
    assert AxisIndexOf(v) == Some(Mask(bits));
    SelectAxisMask(t, DatapointAxis(observed), v, bits, ix);
  }

  // ---------------------------------------------------------------------------------
  // Selection from any other dataset

  /** The elements `np.array(dataset)` indexes along its first axis: the items of a list or
      tuple, the rows of an array of rank at least 1. Other values become 0-d arrays, which
      cannot be indexed. */
  function Indexable(dataset: PyData): (r: Option<seq<PyData>>)
    requires dataset.Valid()
    ensures r.Some? <==> ((dataset.Collection? && dataset.collectionKind in {PyList, PyTuple}) ||
      (dataset.NdArray? && |dataset.a.shape| > 0))
    ensures r.Some? && dataset.Collection? ==> r.value == dataset.items
    ensures r.Some? && dataset.NdArray? ==> (|r.value| == dataset.a.shape[0] &&
      forall n :: 0 <= n < |r.value| ==> r.value[n] == NdArray(Row(dataset.a, n), dataset.dtype))
  {
    match dataset
    case Collection(kind, items) => if kind in {PyList, PyTuple} then Some(items) else None
    case NdArray(a, dtype) =>
      if |a.shape| > 0 then Some(seq(a.shape[0], n requires 0 <= n < a.shape[0] => NdArray(Row(a, n), dtype)))
      else None
    case _ => None
  }

  /** `list(np.array(dataset)[indices])` for a dataset that is not a tensor, with a
      one-dimensional index: the chosen elements in the order of the index. */
  function SelectList(dataset: PyData, index: PyData): (r: Result<PyData>)
    requires dataset.Valid() && index.Valid()
    ensures r.Err? ==> r.error == IndexError
    ensures r.Ok? <==> (Indexable(dataset).Some? && AxisIndexOf(index).Some? &&
      (AxisIndexOf(index).value.Positions? ==> |AxisIndexOf(index).value.shape| == 1) &&
      Resolve(AxisIndexOf(index).value, |Indexable(dataset).value|).Some?)
    ensures r.Ok? ==> (r.value.Collection? && r.value.collectionKind == PyList &&
      var pos := Resolve(AxisIndexOf(index).value, |Indexable(dataset).value|).value.1;
      |r.value.items| == |pos| &&
      forall j :: 0 <= j < |pos| ==> r.value.items[j] == Indexable(dataset).value[pos[j]])
  {
    match Indexable(dataset)
    case None => Err(IndexError)
    case Some(elements) =>
      match AxisIndexOf(index)
      case None => Err(IndexError)
      case Some(ix) =>
        if ix.Positions? && |ix.shape| != 1 then Err(IndexError)
        else
          match Resolve(ix, |elements|)
          case None => Err(IndexError)
          case Some(sel) =>
            var pos := sel.1;
            Ok(Collection(PyList, seq(|pos|, j requires 0 <= j < |pos| => elements[pos[j]])))
  }

  /** With a list or array of integer positions, item `j` of the result is the element at
      `ids[j]` (counted from the end when negative). */
  lemma SelectListPositions(dataset: PyData, index: PyData, ids: seq<int>, j: nat)
    requires dataset.Valid() && index.Valid()
    requires AxisIndexOf(index) == Some(Positions([|ids|], ids))
    requires SelectList(dataset, index).Ok? && j < |ids|
    ensures Normalize(ids[j], |Indexable(dataset).value|).Some?
    ensures j < |SelectList(dataset, index).value.items|
    ensures SelectList(dataset, index).value.items[j] ==
      Indexable(dataset).value[Normalize(ids[j], |Indexable(dataset).value|).value]
  {
  }

  /** With a boolean mask, the result lists the elements whose bit is true, in order. */
  lemma SelectListMask(dataset: PyData, index: PyData, bits: seq<bool>)
    requires dataset.Valid() && index.Valid()
    requires AxisIndexOf(index) == Some(Mask(bits))
    requires SelectList(dataset, index).Ok?
    ensures |bits| == |Indexable(dataset).value|
    ensures SelectList(dataset, index).value.items ==
      seq(|TruePositions(bits)|, j requires 0 <= j < |TruePositions(bits)| => Indexable(dataset).value[TruePositions(bits)[j]])
  {
  }

  // ---------------------------------------------------------------------------------
  // Sampling

  /** The weights, converted, when there are any. */
  function WeightsOption(weights: Option<PyData>): (r: Result<Option<Tensor>>)
    requires weights.Some? ==> weights.value.Valid()
    ensures weights.None? ==> r == Ok(None)
    ensures weights.Some? ==> (r.Ok? <==> WeightsOf(weights.value).Ok?)
    ensures weights.Some? && r.Ok? ==> r.value == Some(WeightsOf(weights.value).value)
    ensures weights.Some? && r.Err? ==> r.error == WeightsOf(weights.value).error
    ensures r.Ok? && r.value.Some? ==> r.value.value.Valid()
  {
    match weights
    case None => Ok(None)
    case Some(w) =>
      var p :- WeightsOf(w);
      Ok(Some(p))
  }

  /** The index array `np.random.choice(range(size), ...)` returns for the drawn positions:
      it indexes `np.array(range(size))`, which holds 64-bit integers unless the range is
      empty, when numpy gives the empty array its default float dtype. */
  function DrawnIndex(size: nat, drawn: seq<nat>): (r: PyData)
    ensures r.Valid()
    ensures size > 0 ==> AxisIndexOf(r) == Some(Positions([|drawn|], drawn))
    ensures size == 0 ==> r.NdArray? && r.dtype == FloatDType && AxisIndexOf(r).None?
  {
    ProdSingle(|drawn|);
    var a := Tensor([|drawn|], seq(|drawn|, i requires 0 <= i < |drawn| => drawn[i] as real));
    var ix := NdArray(a, if size == 0 then FloatDType else IntDType);
    assert IntsOf(ix.a.data) == drawn;
    ix
  }

  /** `EmpiricalDistribution._get_sample`. Without `indices`: the weights are converted, the
      dataset size is read, a batch larger than it is a ValueError, and a list, set, tuple,
      dict or string dataset gets `batch_size` distinct positions drawn (of nonzero weight,
      when there are weights); for any other dataset the code names the undefined
      `number_samples` (a NameError). The drawn positions, or the given `indices`, then
      select from a tensor dataset by tensor indexing and from any other dataset through a
      numpy array. */
  function EmpiricalSample(dataset: PyData, indices: Option<PyData>, weights: Option<PyData>,
                           batchSize: nat, observed: bool, rolls: seq<nat>): (r: Result<PyData>)
    requires dataset.Valid()
    requires indices.Some? ==> indices.value.Valid()
    requires weights.Some? ==> weights.value.Valid()
    ensures indices.None? && WeightsOption(weights).Err? ==> r == Err(WeightsOption(weights).error)
    ensures indices.None? && WeightsOption(weights).Ok? && DatasetSize(dataset, observed).Err? ==>
      r == Err(DatasetSize(dataset, observed).error)
    ensures indices.None? && WeightsOption(weights).Ok? && DatasetSize(dataset, observed).Ok? ==>
      var size := DatasetSize(dataset, observed).value;
      (size < batchSize ==> r == Err(ValueError)) &&
      (size >= batchSize && !IsDiscrete(dataset) ==> r == Err(NameError)) &&
      (size >= batchSize && IsDiscrete(dataset) && Pool(WeightsOption(weights).value, size, batchSize).Err? ==>
        r == Err(ValueError))
    ensures indices.Some? && dataset.TorchTensor? ==>
      r == (var s :- SelectTensor(dataset.t, IndicesOf(indices.value), observed); Ok(TorchTensor(s)))
    ensures indices.Some? && !dataset.TorchTensor? ==> r == SelectList(dataset, indices.value)
    ensures r.Ok? && indices.None? ==> r.value.Collection? && |r.value.items| == batchSize
    ensures indices.None? && weights.None? && IsDiscrete(dataset) && DatasetSize(dataset, observed) == Ok(0) ==>
      r == Err(if batchSize == 0 then IndexError else ValueError)
  {
    match indices
    case None =>
      var p :- WeightsOption(weights);
      var size :- DatasetSize(dataset, observed);
      if size < batchSize then Err(ValueError)
      else if !IsDiscrete(dataset) then Err(NameError)
      else
        var pool :- Pool(p, size, batchSize);
        var drawn := Draw(pool, batchSize, rolls);
        SelectList(dataset, DrawnIndex(size, drawn))
    case Some(v) =>
      if dataset.TorchTensor? then
        var s :- SelectTensor(dataset.t, IndicesOf(v), observed);
        Ok(TorchTensor(s))
      else
        SelectList(dataset, v)
  }

  /** Without `indices`, a list or tuple dataset at least `batch_size` long goes straight
      from the pool of positions to the draw. */
  lemma ListSampleSteps(dataset: PyData, weights: Option<PyData>, batchSize: nat, observed: bool, rolls: seq<nat>)
    requires dataset.Valid() && dataset.Collection? && dataset.collectionKind in {PyList, PyTuple}
    requires weights.Some? ==> weights.value.Valid()
    requires WeightsOption(weights).Ok? && batchSize <= |dataset.items|
    ensures var pool := Pool(WeightsOption(weights).value, |dataset.items|, batchSize);
      EmpiricalSample(dataset, None, weights, batchSize, observed, rolls) ==
        if pool.Err? then Err(pool.error)
        else SelectList(dataset, DrawnIndex(|dataset.items|, Draw(pool.value, batchSize, rolls)))
  {
  }

  /** Drawn positions within a list or tuple select its items at those positions. */
  lemma ListDrawn(dataset: PyData, drawn: seq<nat>)
    requires dataset.Valid() && dataset.Collection? && dataset.collectionKind in {PyList, PyTuple}
    requires |dataset.items| > 0
    requires forall j :: 0 <= j < |drawn| ==> drawn[j] < |dataset.items|
    ensures SelectList(dataset, DrawnIndex(|dataset.items|, drawn)).Ok?
    ensures SelectList(dataset, DrawnIndex(|dataset.items|, drawn)).value.items ==
      seq(|drawn|, j requires 0 <= j < |drawn| => dataset.items[drawn[j]])
  {
    var r := SelectList(dataset, DrawnIndex(|dataset.items|, drawn));
    assert r.Ok?;
  }

  /** Without `indices` and without weights, a non-empty list or tuple dataset yields
      `batch_size` of its items, taken at distinct positions. (An empty one is an IndexError,
      as `EmpiricalSample` states.) */
  lemma EmpiricalDrawDistinct(dataset: PyData, batchSize: nat, observed: bool, rolls: seq<nat>)
    returns (picks: seq<nat>)
    requires dataset.Valid() && dataset.Collection? && dataset.collectionKind in {PyList, PyTuple}
    requires 0 < |dataset.items| && batchSize <= |dataset.items|
    ensures EmpiricalSample(dataset, None, None, batchSize, observed, rolls).Ok?
    ensures |picks| == batchSize && Distinct(picks)
    ensures forall j :: 0 <= j < batchSize ==> picks[j] < |dataset.items|
    ensures EmpiricalSample(dataset, None, None, batchSize, observed, rolls).value.items ==
      seq(batchSize, j requires 0 <= j < batchSize => dataset.items[picks[j]])
  {
    var size := |dataset.items|;
    RangeDistinct(size);
    picks := Draw(Range(size), batchSize, rolls);
    ListSampleSteps(dataset, None, batchSize, observed, rolls);
    ListDrawn(dataset, picks);
  }

  /** With weights, a list or tuple dataset yields items at distinct positions, each of
      nonzero weight. */
  lemma EmpiricalWeightedDraw(dataset: PyData, w: PyData, batchSize: nat, observed: bool, rolls: seq<nat>)
    returns (picks: seq<nat>)
    requires dataset.Valid() && dataset.Collection? && dataset.collectionKind in {PyList, PyTuple} && w.Valid()
    requires EmpiricalSample(dataset, None, Some(w), batchSize, observed, rolls).Ok?
    ensures WeightsOf(w).Ok?
    ensures |picks| == batchSize && Distinct(picks)
    ensures forall j :: 0 <= j < batchSize ==> picks[j] < |dataset.items| && WeightsOf(w).value.data[picks[j]] != 0.0
    ensures EmpiricalSample(dataset, None, Some(w), batchSize, observed, rolls).value.items ==
      seq(batchSize, j requires 0 <= j < batchSize => dataset.items[picks[j]])
  {
    var p := WeightsOf(w).value;
    ListSampleSteps(dataset, Some(w), batchSize, observed, rolls);
    var pool := Pool(Some(p), |dataset.items|, batchSize).value;
    picks := Draw(pool, batchSize, rolls);
    assert forall j :: 0 <= j < batchSize ==> picks[j] in pool;
    ListDrawn(dataset, picks);
  }

  /** With weights, drawing from a list or tuple dataset succeeds exactly when numpy
      accepts the weights for its size and the batch. */
  lemma EmpiricalWeightedAccepts(dataset: PyData, w: PyData, batchSize: nat, observed: bool, rolls: seq<nat>)
    requires dataset.Valid() && dataset.Collection? && dataset.collectionKind in {PyList, PyTuple} && w.Valid()
    requires WeightsOf(w).Ok? && batchSize <= |dataset.items|
    ensures EmpiricalSample(dataset, None, Some(w), batchSize, observed, rolls).Ok? <==>
      Support(WeightsOf(w).value, |dataset.items|, batchSize).Ok?
  {
    var p := WeightsOf(w).value;
    var size := |dataset.items|;
    ListSampleSteps(dataset, Some(w), batchSize, observed, rolls);
    if Support(p, size, batchSize).Ok? {
      var pool := Pool(Some(p), size, batchSize).value;
      var drawn := Draw(pool, batchSize, rolls);
      assert forall j :: 0 <= j < batchSize ==> drawn[j] in pool;
      ListDrawn(dataset, drawn);
    }
  }

  /** Every batch of distinct positions of nonzero weight can be drawn from a list or tuple
      dataset that numpy accepts the weights for. */
  lemma EmpiricalWeightedComplete(dataset: PyData, w: PyData, observed: bool, picks: seq<nat>)
    returns (rolls: seq<nat>)
    requires dataset.Valid() && dataset.Collection? && dataset.collectionKind in {PyList, PyTuple} && w.Valid()
    requires WeightsOf(w).Ok? && |picks| <= |dataset.items|
    requires Support(WeightsOf(w).value, |dataset.items|, |picks|).Ok?
    requires Distinct(picks)
    requires forall j :: 0 <= j < |picks| ==> picks[j] < |dataset.items| && WeightsOf(w).value.data[picks[j]] != 0.0
    ensures EmpiricalSample(dataset, None, Some(w), |picks|, observed, rolls).Ok?
    ensures EmpiricalSample(dataset, None, Some(w), |picks|, observed, rolls).value.items ==
      seq(|picks|, j requires 0 <= j < |picks| => dataset.items[picks[j]])
  {
    var p := WeightsOf(w).value;
    var pool := Pool(Some(p), |dataset.items|, |picks|).value;
    assert forall j :: 0 <= j < |picks| ==> picks[j] in pool;
    rolls := DrawComplete(pool, picks);
    ListSampleSteps(dataset, Some(w), |picks|, observed, rolls);
    ListDrawn(dataset, picks);
  }
}
