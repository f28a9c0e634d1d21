/** The shape utilities of `brancher/utilities.py`: summing out data axes, aligning ranks,
    broadcasting parameter tensors together, flattening the sample and datapoint axes,
    coercing user values to tensors, tiling and diagonal extraction. */
module Utilities {
  import opened Wrappers
  import opened Shapes
  import opened Tensors
  import opened Data

  predicate ValidTensors(ts: seq<Tensor>)
  {
    forall i :: 0 <= i < |ts| ==> ts[i].Valid()
  }

  function ShapesOf(ts: seq<Tensor>): (r: seq<Shape>)
    ensures |r| == |ts| && forall i :: 0 <= i < |ts| ==> r[i] == ts[i].shape
  {
    seq(|ts|, i requires 0 <= i < |ts| => ts[i].shape)
  }

  // ---------------------------------------------------------------------------------
  // sum_from_dim, sum_data_dimensions

  /** `sum_from_dim`: sums out the axes from `dim` to the last, one axis at a time
      starting from the last; the result is the block-sum reference `SumTrailing`. */
  method SumFromDim(t: Tensor, dim: nat) returns (r: Tensor)
    requires t.Valid()
    ensures r == SumTrailing(t, dim)
    ensures r.Valid() && r.shape == if dim < |t.shape| then t.shape[..dim] else t.shape
    ensures Sum(r.data) == Sum(t.data)
  {
    var d := |t.shape|;
    r := t;
    while d > dim
      invariant d <= |t.shape|
      invariant dim <= d || d == |t.shape|
      invariant r == SumTrailing(t, d)
      decreases d
    {
      SumLastAxisOfTrailing(t, d);
      r := SumLastAxis(r);
      d := d - 1;
    }
  }

  /** `sum_data_dimensions`: sums out every axis after the sample and datapoint axes. */
  function SumDataDimensions(t: Tensor): (r: Tensor)
    requires t.Valid()
    ensures r.Valid()
    ensures |t.shape| >= 2 ==> r.shape == t.shape[..2] && |r.data| == t.shape[0] * t.shape[1]
    ensures |t.shape| < 2 ==> r == t
    ensures Sum(r.data) == Sum(t.data)
  {
    if |t.shape| >= 2 then
      ProdPair(t.shape[0], t.shape[1]);
      assert t.shape[..2] == [t.shape[0], t.shape[1]];
      SumTrailing(t, 2)
    else
      SumTrailing(t, 2)
  }

  /** Entry `i` of `sum_data_dimensions` is the sum of the data block of sample-datapoint
      position `i`. */
  lemma SumDataDimensionsAt(t: Tensor, i: nat)
    requires t.Valid() && |t.shape| > 2 && i < t.shape[0] * t.shape[1]
    ensures i * Prod(t.shape[2..]) + Prod(t.shape[2..]) <= |t.data|
    ensures SumDataDimensions(t).data[i] == Sum(t.data[i * Prod(t.shape[2..])..i * Prod(t.shape[2..]) + Prod(t.shape[2..])])
  {
    assert t.shape[..2] == [t.shape[0], t.shape[1]];
    ProdPair(t.shape[0], t.shape[1]);
    SumTrailingAt(t, 2, i);
  }

  // ---------------------------------------------------------------------------------
  // uniform_shapes

  /** The shape `uniform_shapes` gives a tensor of shape `s` when the largest rank is `m`:
      one trailing axis of size 1 when `s` is exactly one axis short. */
  function UniformShape(s: Shape, m: nat): Shape
  {
    if |s| + 1 == m then s + [1] else s
  }

  /** `uniform_shapes`: every tensor one axis short of the largest rank gets a trailing
      axis of size 1; `np.max` of no ranks is a ValueError. */
  function UniformShapes(ts: seq<Tensor>): (r: Result<seq<Tensor>>)
    requires ValidTensors(ts)
    ensures r.Ok? <==> |ts| > 0
    ensures r.Err? ==> r.error == ValueError
    ensures r.Ok? ==> |r.value| == |ts| && ValidTensors(r.value)
    ensures r.Ok? ==> forall i :: 0 <= i < |ts| ==>
      r.value[i].data == ts[i].data && r.value[i].shape == UniformShape(ts[i].shape, MaxRank(ShapesOf(ts)))
  {
    if |ts| == 0 then Err(ValueError)
    else
      var m := MaxRank(ShapesOf(ts));
      Ok(seq(|ts|, i requires 0 <= i < |ts| =>
        if |ts[i].shape| + 1 == m then Unsqueeze(ts[i], |ts[i].shape|) else ts[i]))
  }

  /** After `uniform_shapes` the largest rank is unchanged, and every tensor that was at
      most one axis short of it now has it. */
  lemma UniformShapesRanks(ts: seq<Tensor>)
    requires ValidTensors(ts) && |ts| > 0
    ensures MaxRank(ShapesOf(UniformShapes(ts).value)) == MaxRank(ShapesOf(ts))
    ensures forall i :: 0 <= i < |ts| && |ts[i].shape| + 1 >= MaxRank(ShapesOf(ts)) ==>
      |UniformShapes(ts).value[i].shape| == MaxRank(ShapesOf(ts))
  {
    var m := MaxRank(ShapesOf(ts));
    var us := ShapesOf(UniformShapes(ts).value);
    var m' := MaxRank(us);
    assert forall i :: 0 <= i < |ts| ==> |us[i]| <= m;
    var w :| 0 <= w < |ts| && |ShapesOf(ts)[w]| == m;
    assert |us[w]| == m;
    var v :| 0 <= v < |us| && |us[v]| == m';
  }

  /** Applying `uniform_shapes` twice is applying it once. */
  lemma UniformShapesIdempotent(ts: seq<Tensor>)
    requires ValidTensors(ts) && |ts| > 0
    ensures UniformShapes(UniformShapes(ts).value) == UniformShapes(ts)
  {
    var us := UniformShapes(ts).value;
    UniformShapesRanks(ts);
    var m := MaxRank(ShapesOf(ts));
    var again := UniformShapes(us).value;
    forall i | 0 <= i < |us|
      ensures again[i] == us[i]
    {
      assert |us[i].shape| + 1 != m;
    }
    assert again == us;
  }

  // ---------------------------------------------------------------------------------
  // partial_broadcast

  /** Every tensor has a sample axis and a datapoint axis. */
  predicate HasBatchAxes(ts: seq<Tensor>)
  {
    forall i :: 0 <= i < |ts| ==> |ts[i].shape| >= 2
  }

  /** `np.max` of the sizes of axis `k` (0 for no tensors, a case the callers exclude). */
  function MaxAxis(ts: seq<Tensor>, k: nat): (m: nat)
    requires forall i :: 0 <= i < |ts| ==> k < |ts[i].shape|
    ensures forall i :: 0 <= i < |ts| ==> ts[i].shape[k] <= m
    ensures |ts| > 0 ==> exists i :: 0 <= i < |ts| && ts[i].shape[k] == m
  {
    if |ts| == 0 then 0
    else
      var init := ts[..|ts| - 1];
      assert forall i :: 0 <= i < |ts| - 1 ==> ts[i] == init[i];
      var m := MaxAxis(init, k);
      var last := ts[|ts| - 1].shape[k];
      if m < last then last else m
  }

  /** When every tensor has size `v` on axis `k`, the largest size is `v`. */
  lemma MaxAxisConstant(ts: seq<Tensor>, k: nat, v: nat)
    requires |ts| > 0 && forall i :: 0 <= i < |ts| ==> k < |ts[i].shape| && ts[i].shape[k] == v
    ensures MaxAxis(ts, k) == v
  {
    var w :| 0 <= w < |ts| && ts[w].shape[k] == MaxAxis(ts, k);
  }

  /** The shape `partial_broadcast` expands a tensor of shape `s` to. */
  function PartialTarget(s: Shape, s0: nat, s1: nat): Shape
    requires |s| >= 2
  {
    [s0, s1] + s[2..]
  }

  /** Every sample size and every datapoint size is 1 or the largest one. */
  predicate LeadingAgree(ts: seq<Tensor>)
    requires HasBatchAxes(ts)
  {
    forall i :: 0 <= i < |ts| ==>
      (ts[i].shape[0] == 1 || ts[i].shape[0] == MaxAxis(ts, 0)) &&
      (ts[i].shape[1] == 1 || ts[i].shape[1] == MaxAxis(ts, 1))
  }

  lemma ExpandableToPartial(s: Shape, s0: nat, s1: nat)
    requires |s| >= 2
    ensures Expandable(s, PartialTarget(s, s0, s1)) <==> (s[0] == s0 || s[0] == 1) && (s[1] == s1 || s[1] == 1)
  {
    var t := PartialTarget(s, s0, s1);
    assert forall i :: 2 <= i < |s| ==> t[i] == s[i];
  }

  /** `partial_broadcast`: expands the sample and datapoint axes of every tensor to the
      largest sizes among them. Reading axes 0 and 1 of a tensor with fewer axes is an
      IndexError, unpacking no tensors a ValueError, and an axis that is neither 1 nor the
      largest size makes `expand` raise a RuntimeError. */
  function PartialBroadcast(ts: seq<Tensor>): (r: Result<seq<Tensor>>)
    requires ValidTensors(ts)
    ensures !HasBatchAxes(ts) ==> r == Err(IndexError)
    ensures |ts| == 0 ==> r == Err(ValueError)
    ensures r.Ok? <==> |ts| > 0 && HasBatchAxes(ts) && LeadingAgree(ts)
    ensures r.Err? ==> r.error in {IndexError, ValueError, RuntimeError}
    ensures r.Ok? ==> |r.value| == |ts| && ValidTensors(r.value) && EachFrom(r.value, ts)
    ensures r.Ok? ==> forall i :: 0 <= i < |ts| ==>
      r.value[i].shape == [MaxAxis(ts, 0), MaxAxis(ts, 1)] + ts[i].shape[2..]
  {
    if !HasBatchAxes(ts) then Err(IndexError)
    else if |ts| == 0 then Err(ValueError)
    else
      var s0, s1 := MaxAxis(ts, 0), MaxAxis(ts, 1);
      LeadingAgreeExpandable(ts);
      if forall i :: 0 <= i < |ts| ==> Expandable(ts[i].shape, PartialTarget(ts[i].shape, s0, s1)) then
        Ok(ExpandEach(ts, s0, s1))
      else
        Err(RuntimeError)
  }

  /** Every tensor can be expanded to the largest sample and datapoint sizes exactly when
      each of its two leading sizes is 1 or the largest. */
  lemma LeadingAgreeExpandable(ts: seq<Tensor>)
    requires HasBatchAxes(ts)
    ensures (forall i :: 0 <= i < |ts| ==> Expandable(ts[i].shape, PartialTarget(ts[i].shape, MaxAxis(ts, 0), MaxAxis(ts, 1))))
      <==> LeadingAgree(ts)
  {
    var s0, s1 := MaxAxis(ts, 0), MaxAxis(ts, 1);
    forall i | 0 <= i < |ts|
      ensures Expandable(ts[i].shape, PartialTarget(ts[i].shape, s0, s1)) <==>
        (ts[i].shape[0] == 1 || ts[i].shape[0] == s0) && (ts[i].shape[1] == 1 || ts[i].shape[1] == s1)
    {
      ExpandableToPartial(ts[i].shape, s0, s1);
    }
  }

  /** Every tensor expanded to sample size `s0` and datapoint size `s1`. */
  function ExpandEach(ts: seq<Tensor>, s0: nat, s1: nat): (r: seq<Tensor>)
    requires ValidTensors(ts) && HasBatchAxes(ts)
    requires forall i :: 0 <= i < |ts| ==> Expandable(ts[i].shape, PartialTarget(ts[i].shape, s0, s1))
    ensures |r| == |ts| && ValidTensors(r) && EachFrom(r, ts)
    ensures forall i :: 0 <= i < |ts| ==> r[i].shape == [s0, s1] + ts[i].shape[2..]
    ensures forall i :: 0 <= i < |ts| ==> r[i] == ExpandTo(ts[i], PartialTarget(ts[i].shape, s0, s1)).value
  {
    seq(|ts|, i requires 0 <= i < |ts| => ExpandTo(ts[i], PartialTarget(ts[i].shape, s0, s1)).value)
  }

  /** With no empty axis, `partial_broadcast` succeeds exactly when every two tensors have
      compatible sample sizes and compatible datapoint sizes. */
  lemma PartialBroadcastPairwise(ts: seq<Tensor>)
    requires ValidTensors(ts) && |ts| > 0 && HasBatchAxes(ts)
    requires forall i :: 0 <= i < |ts| ==> ts[i].shape[0] > 0 && ts[i].shape[1] > 0
    ensures PartialBroadcast(ts).Ok? <==>
      forall i, j :: 0 <= i < |ts| && 0 <= j < |ts| ==>
        Compatible(ts[i].shape[0], ts[j].shape[0]) && Compatible(ts[i].shape[1], ts[j].shape[1])
  {
    var s0, s1 := MaxAxis(ts, 0), MaxAxis(ts, 1);
    if forall i, j :: 0 <= i < |ts| && 0 <= j < |ts| ==>
        Compatible(ts[i].shape[0], ts[j].shape[0]) && Compatible(ts[i].shape[1], ts[j].shape[1]) {
      var w0 :| 0 <= w0 < |ts| && ts[w0].shape[0] == s0;
      var w1 :| 0 <= w1 < |ts| && ts[w1].shape[1] == s1;
      forall i | 0 <= i < |ts|
        ensures (ts[i].shape[0] == 1 || ts[i].shape[0] == s0) && (ts[i].shape[1] == 1 || ts[i].shape[1] == s1)
      {
        assert Compatible(ts[i].shape[0], ts[w0].shape[0]);
        assert Compatible(ts[i].shape[1], ts[w1].shape[1]);
      }
    }
  }

  /** `partial_broadcast` of already broadcast tensors changes nothing. */
  lemma PartialBroadcastIdempotent(ts: seq<Tensor>)
    requires ValidTensors(ts) && PartialBroadcast(ts).Ok?
    ensures PartialBroadcast(PartialBroadcast(ts).value) == PartialBroadcast(ts)
  {
    var bs := PartialBroadcast(ts).value;
    PartialBroadcastOfBroadcast(bs, MaxAxis(ts, 0), MaxAxis(ts, 1));
  }

  /** Tensors that already share their sample and datapoint sizes pass through unchanged. */
  lemma PartialBroadcastOfBroadcast(bs: seq<Tensor>, s0: nat, s1: nat)
    requires ValidTensors(bs) && |bs| > 0 && HasBatchAxes(bs)
    requires forall i :: 0 <= i < |bs| ==> bs[i].shape[0] == s0 && bs[i].shape[1] == s1
    ensures PartialBroadcast(bs) == Ok(bs)
  {
    MaxAxisConstant(bs, 0, s0);
    MaxAxisConstant(bs, 1, s1);
    var again := PartialBroadcast(bs).value;
    forall i | 0 <= i < |bs|
      ensures again[i] == bs[i]
    {
      PartialBroadcastAt(bs, i);
      assert PartialTarget(bs[i].shape, s0, s1) == bs[i].shape;
      ExpandToSelf(bs[i]);
    }
    assert again == bs;
  }

  /** Tensor `i` of `partial_broadcast` is that tensor expanded on its own. */
  lemma PartialBroadcastAt(ts: seq<Tensor>, i: nat)
    requires ValidTensors(ts) && PartialBroadcast(ts).Ok? && i < |ts|
    ensures |ts[i].shape| >= 2
    ensures ExpandTo(ts[i], PartialTarget(ts[i].shape, MaxAxis(ts, 0), MaxAxis(ts, 1))).Ok?
    ensures PartialBroadcast(ts).value[i] == ExpandTo(ts[i], PartialTarget(ts[i].shape, MaxAxis(ts, 0), MaxAxis(ts, 1))).value
  {
    ExpandableToPartial(ts[i].shape, MaxAxis(ts, 0), MaxAxis(ts, 1));
  }

  /** Entry `ix` of tensor `i` of `partial_broadcast` is that tensor's entry with a size-1
      sample or datapoint axis read at 0: the tensor is copied along the grown axes. */
  lemma PartialBroadcastEntry(ts: seq<Tensor>, i: nat, ix: seq<nat>)
    requires ValidTensors(ts) && PartialBroadcast(ts).Ok? && i < |ts|
    requires InBounds(PartialBroadcast(ts).value[i].shape, ix)
    ensures InBounds(ts[i].shape, ExpandIndex(ts[i].shape, ix))
    ensures Entry(PartialBroadcast(ts).value[i], ix) == Entry(ts[i], ExpandIndex(ts[i].shape, ix))
  {
    PartialBroadcastAt(ts, i);
    ExpandAt(ts[i], PartialTarget(ts[i].shape, MaxAxis(ts, 0), MaxAxis(ts, 1)), ix);
  }

  // ---------------------------------------------------------------------------------
  // broadcast_and_squeeze, broadcast_and_squeeze_mixed

  /** The sample and datapoint axes of a shape (`shape[:2]`). */
  function BatchShape(s: Shape): (b: Shape)
    ensures |b| <= 2
  {
    if |s| <= 2 then s else s[..2]
  }

  /** The data axes of a shape (`shape[2:]`). */
  function EventShape(s: Shape): Shape
  {
    if |s| <= 2 then [] else s[2..]
  }

  lemma BatchEventSplit(s: Shape)
    ensures s == BatchShape(s) + EventShape(s)
    ensures Prod(s) == Prod(BatchShape(s)) * Prod(EventShape(s))
  {
    if |s| > 2 {
      ProdSplit(s, 2);
    } else {
      assert s + [] == s;
    }
  }

  /** Every tensor holds a single element per sample-datapoint position. */
  predicate Squeezable(ts: seq<Tensor>)
  {
    forall i :: 0 <= i < |ts| ==> Prod(EventShape(ts[i].shape)) == 1
  }

  /** `view(shape[:2] + (1, 1))` of a tensor with one element per position. */
  function Squeeze(t: Tensor): (r: Tensor)
    requires t.Valid() && Prod(EventShape(t.shape)) == 1
    ensures r.Valid() && r.shape == BatchShape(t.shape) + [1, 1] && r.data == t.data
  {
    BatchEventSplit(t.shape);
    ProdConcat(BatchShape(t.shape), [1, 1]);
    ProdPair(1, 1);
    View(t, BatchShape(t.shape) + [1, 1]).value
  }

  /** The first step of `broadcast_and_squeeze`: when every tensor is squeezable, each is
      viewed with data axes (1, 1); otherwise the tensors are left as they are. */
  function Squeezed(ts: seq<Tensor>): (r: seq<Tensor>)
    requires ValidTensors(ts)
    ensures |r| == |ts| && ValidTensors(r)
    ensures forall i :: 0 <= i < |ts| ==> r[i].data == ts[i].data
    ensures Squeezable(ts) ==> forall i :: 0 <= i < |ts| ==> r[i].shape == BatchShape(ts[i].shape) + [1, 1]
    ensures !Squeezable(ts) ==> r == ts
    ensures |ts| > 0 ==> exists i :: 0 <= i < |ts| && |r[i].shape| >= 2
  {
    if Squeezable(ts) then
      var r := seq(|ts|, i requires 0 <= i < |ts| => Squeeze(ts[i]));
      assert |ts| > 0 ==> |r[0].shape| >= 2;
      r
    else
      assert exists i :: 0 <= i < |ts| && |ts[i].shape| > 2;
      ts
  }

  /** `torch.broadcast_tensors`: every tensor broadcast to the common shape, or a
      RuntimeError when there is none. */
  function BroadcastAll(ts: seq<Tensor>): (r: Result<seq<Tensor>>)
    requires ValidTensors(ts)
    ensures r.Ok? <==> CommonShape(ShapesOf(ts)).Some?
    ensures r.Err? ==> r.error == RuntimeError
    ensures r.Ok? ==> |r.value| == |ts| && ValidTensors(r.value) && EachFrom(r.value, ts)
    ensures r.Ok? ==> forall i :: 0 <= i < |ts| ==> r.value[i].shape == CommonShape(ShapesOf(ts)).value
    ensures r.Ok? && |ts| > 0 ==> |r.value[0].shape| == MaxRank(ShapesOf(ts))
  {
    match CommonShape(ShapesOf(ts))
    case None => Err(RuntimeError)
    case Some(target) =>
      CommonShapeSound(ShapesOf(ts));
      CommonShapeRank(ShapesOf(ts));
      assert forall i :: 0 <= i < |ts| ==> ShapesOf(ts)[i] == ts[i].shape;
      Ok(BroadcastEach(ts, target))
  }

  /** Every tensor broadcast to `target`. */
  function BroadcastEach(ts: seq<Tensor>, target: Shape): (r: seq<Tensor>)
    requires ValidTensors(ts)
    requires forall i :: 0 <= i < |ts| ==> BroadcastsTo(ts[i].shape, target)
    ensures |r| == |ts| && ValidTensors(r) && EachFrom(r, ts)
    ensures forall i :: 0 <= i < |ts| ==> r[i].shape == target
    ensures forall i :: 0 <= i < |ts| ==> r[i] == BroadcastTo(ts[i], target).value
  {
    seq(|ts|, i requires 0 <= i < |ts| => BroadcastTo(ts[i], target).value)
  }

  /** Tensor `i` of `torch.broadcast_tensors` is that tensor broadcast on its own to the
      common shape: the other tensors only decide the target. */
  lemma BroadcastAllAt(ts: seq<Tensor>, i: nat)
    requires ValidTensors(ts) && BroadcastAll(ts).Ok? && i < |ts|
    ensures BroadcastsTo(ts[i].shape, CommonShape(ShapesOf(ts)).value)
    ensures BroadcastAll(ts).value[i] == BroadcastTo(ts[i], CommonShape(ShapesOf(ts)).value).value
  {
    CommonShapeSound(ShapesOf(ts));
  }

  /** Entry `ix` of tensor `i` of `torch.broadcast_tensors` is that tensor's entry at the
      trailing indices, with its size-1 axes read at 0. */
  lemma BroadcastAllEntry(ts: seq<Tensor>, i: nat, ix: seq<nat>)
    requires ValidTensors(ts) && BroadcastAll(ts).Ok? && i < |ts|
    requires InBounds(CommonShape(ShapesOf(ts)).value, ix)
    ensures |ts[i].shape| <= |ix| && InBounds(ts[i].shape, BroadcastIndex(ts[i].shape, ix))
    ensures Entry(BroadcastAll(ts).value[i], ix) == Entry(ts[i], BroadcastIndex(ts[i].shape, ix))
  {
    BroadcastAllAt(ts, i);
    BroadcastAt(ts[i], CommonShape(ShapesOf(ts)).value, ix);
  }

  /** The tensors `broadcast_and_squeeze` hands to `torch.broadcast_tensors`. */
  function Prepared(ts: seq<Tensor>): Result<seq<Tensor>>
    requires ValidTensors(ts)
  {
    UniformShapes(Squeezed(ts))
  }

  /** `broadcast_and_squeeze`: squeezes, aligns ranks and broadcasts the tensors to one
      shape. No tensors is a ValueError, shapes without a common broadcast a RuntimeError. */
  function BroadcastAndSqueeze(ts: seq<Tensor>): (r: Result<seq<Tensor>>)
    requires ValidTensors(ts)
    ensures |ts| == 0 ==> r == Err(ValueError)
    ensures r.Err? ==> r.error == ValueError || r.error == RuntimeError
    ensures r.Ok? ==> |r.value| == |ts| && ValidTensors(r.value) && EachFrom(r.value, ts)
    ensures r.Ok? ==> SharedShape(r.value)
  {
    var us :- UniformShapes(Squeezed(ts));
    PreparedRank(ts);
    var bs :- BroadcastAll(us);
    PreparedFrom(ts, us, bs);
    Ok(bs)
  }

  /** The tensors share one shape, of rank at least 2. */
  predicate SharedShape(bs: seq<Tensor>)
  {
    |bs| > 0 && |bs[0].shape| >= 2 && forall i :: 0 <= i < |bs| ==> bs[i].shape == bs[0].shape
  }

  /** Squeezing and aligning ranks keep the elements, so broadcasting the prepared tensors
      draws from the originals. */
  lemma PreparedFrom(ts: seq<Tensor>, us: seq<Tensor>, bs: seq<Tensor>)
    requires ValidTensors(ts) && Prepared(ts) == Ok(us) && EachFrom(bs, us)
    ensures EachFrom(bs, ts)
  {
    forall i | 0 <= i < |ts|
      ensures ElementsFrom(bs[i], ts[i])
    {
      assert us[i].data == Squeezed(ts)[i].data == ts[i].data;
      assert ElementsFrom(bs[i], us[i]);
    }
  }

  /** `broadcast_and_squeeze` succeeds exactly when the prepared shapes have a common
      broadcast shape, and then broadcasts the prepared tensors. */
  lemma BroadcastAndSqueezeSteps(ts: seq<Tensor>)
    requires ValidTensors(ts) && |ts| > 0
    ensures Prepared(ts).Ok? && BroadcastAndSqueeze(ts) == BroadcastAll(Prepared(ts).value)
    ensures BroadcastAndSqueeze(ts).Ok? <==> CommonShape(ShapesOf(Prepared(ts).value)).Some?
  {
  }

  /** After squeezing and aligning, the largest rank is at least 2. */
  lemma PreparedRank(ts: seq<Tensor>)
    requires ValidTensors(ts) && |ts| > 0
    ensures MaxRank(ShapesOf(Prepared(ts).value)) >= 2
  {
    var sq := Squeezed(ts);
    var us := Prepared(ts).value;
    var w :| 0 <= w < |sq| && |sq[w].shape| >= 2;
    assert |us[w].shape| >= 2;
    assert |ShapesOf(us)[w]| >= 2;
  }

  /** The two tensors in the other order. */
  function Swapped<T>(s: seq<T>): (r: seq<T>)
    requires |s| == 2
    ensures |r| == 2 && r[0] == s[1] && r[1] == s[0]
  {
    [s[1], s[0]]
  }

  lemma SqueezableTwo(ts: seq<Tensor>)
    requires |ts| == 2
    ensures Squeezable(ts) <==> Prod(EventShape(ts[0].shape)) == 1 && Prod(EventShape(ts[1].shape)) == 1
  {
  }

  lemma SqueezedSwap(ts: seq<Tensor>)
    requires |ts| == 2 && ValidTensors(ts)
    ensures ValidTensors(Swapped(ts)) && Squeezed(Swapped(ts)) == Swapped(Squeezed(ts))
  {
    var us := Swapped(ts);
    var s1, s2 := Squeezed(ts), Squeezed(us);
    SqueezableTwo(ts);
    SqueezableTwo(us);
    assert s2[0] == s1[1] && s2[1] == s1[0];
  }

  lemma MaxRankTwo(shapes: seq<Shape>)
    requires |shapes| == 2
    ensures MaxRank(shapes) == Max(|shapes[0]|, |shapes[1]|)
  {
    assert shapes[..1][..0] == [];
  }

  lemma UniformShapesSwap(ts: seq<Tensor>)
    requires |ts| == 2 && ValidTensors(ts)
    ensures ValidTensors(Swapped(ts)) && UniformShapes(ts).Ok? && UniformShapes(Swapped(ts)).Ok?
    ensures UniformShapes(Swapped(ts)).value == Swapped(UniformShapes(ts).value)
  {
    var us := Swapped(ts);
    MaxRankTwo(ShapesOf(ts));
    MaxRankTwo(ShapesOf(us));
    var r1, r2 := UniformShapes(ts).value, UniformShapes(us).value;
    assert r2[0] == r1[1] && r2[1] == r1[0];
  }

  /** With two shapes, the common shape does not depend on their order. */
  lemma CommonShapeSwap(shapes: seq<Shape>)
    requires |shapes| == 2
    ensures CommonShape(Swapped(shapes)) == CommonShape(shapes)
  {
    assert shapes == [shapes[0], shapes[1]];
    CommonShapeOfTwo(shapes[0], shapes[1]);
    CommonShapeOfTwo(shapes[1], shapes[0]);
    BroadcastPairCommutes(shapes[0], shapes[1]);
  }

  lemma BroadcastAllSwap(ts: seq<Tensor>)
    requires |ts| == 2 && ValidTensors(ts)
    ensures ValidTensors(Swapped(ts))
    ensures BroadcastAll(Swapped(ts)).Ok? <==> BroadcastAll(ts).Ok?
    ensures BroadcastAll(ts).Ok? ==> BroadcastAll(Swapped(ts)).value == Swapped(BroadcastAll(ts).value)
  {
    var us := Swapped(ts);
    SwappedCommonShape(ts);
    if BroadcastAll(ts).Ok? {
      BroadcastAllSwapFirst(ts, us);
      BroadcastAllSwapSecond(ts, us);
      SwappedPair(BroadcastAll(ts).value, BroadcastAll(us).value);
    }
  }

  /** Two pairs that hold each other's elements crosswise are each other's swap. */
  lemma SwappedPair<T>(r1: seq<T>, r2: seq<T>)
    requires |r1| == 2 && |r2| == 2 && r2[0] == r1[1] && r2[1] == r1[0]
    ensures r2 == Swapped(r1)
  {
  }

  lemma SwappedCommonShape(ts: seq<Tensor>)
    requires |ts| == 2 && ValidTensors(ts)
    ensures ValidTensors(Swapped(ts))
    ensures CommonShape(ShapesOf(Swapped(ts))) == CommonShape(ShapesOf(ts))
  {
    assert ShapesOf(Swapped(ts)) == Swapped(ShapesOf(ts));
    CommonShapeSwap(ShapesOf(ts));
  }

  lemma BroadcastAllSwapFirst(ts: seq<Tensor>, us: seq<Tensor>)
    requires |ts| == 2 && ValidTensors(ts) && us == Swapped(ts) && ValidTensors(us)
    requires BroadcastAll(ts).Ok? && CommonShape(ShapesOf(us)) == CommonShape(ShapesOf(ts))
    ensures BroadcastAll(us).Ok? && BroadcastAll(us).value[0] == BroadcastAll(ts).value[1]
  {
    BroadcastAllAt(ts, 1);
    BroadcastAllAt(us, 0);
  }

  lemma BroadcastAllSwapSecond(ts: seq<Tensor>, us: seq<Tensor>)
    requires |ts| == 2 && ValidTensors(ts) && us == Swapped(ts) && ValidTensors(us)
    requires BroadcastAll(ts).Ok? && CommonShape(ShapesOf(us)) == CommonShape(ShapesOf(ts))
    ensures BroadcastAll(us).Ok? && BroadcastAll(us).value[1] == BroadcastAll(ts).value[0]
  {
    BroadcastAllAt(ts, 0);
    BroadcastAllAt(us, 1);
  }

  /** `broadcast_and_squeeze` of two tensors does not depend on their order. */
  lemma BroadcastAndSqueezeSwap(ts: seq<Tensor>)
    requires |ts| == 2 && ValidTensors(ts)
    ensures ValidTensors(Swapped(ts))
    ensures BroadcastAndSqueeze(Swapped(ts)).Ok? <==> BroadcastAndSqueeze(ts).Ok?
    ensures BroadcastAndSqueeze(ts).Ok? ==>
      BroadcastAndSqueeze(Swapped(ts)).value == Swapped(BroadcastAndSqueeze(ts).value)
  {
    var us := Swapped(ts);
    PreparedSwap(ts);
    var p := Prepared(ts).value;
    calc {
      BroadcastAndSqueeze(us);
    == { BroadcastAndSqueezeSteps(us); }
      BroadcastAll(Prepared(us).value);
    ==
      BroadcastAll(Swapped(p));
    }
    BroadcastAndSqueezeSteps(ts);
    BroadcastAllSwap(p);
  }

  lemma PreparedSwap(ts: seq<Tensor>)
    requires |ts| == 2 && ValidTensors(ts)
    ensures ValidTensors(Swapped(ts)) && Prepared(ts).Ok? && Prepared(Swapped(ts)).Ok?
    ensures |Prepared(ts).value| == 2 && ValidTensors(Prepared(ts).value)
    ensures Prepared(Swapped(ts)).value == Swapped(Prepared(ts).value)
  {
    SqueezedSwap(ts);
    UniformShapesSwap(Squeezed(ts));
  }

  /** The result of `broadcast_and_squeeze_mixed`: the broadcast positional values with the
      broadcast keyword values, or the keyword values alone when there are no positional
      ones. */
  datatype Mixed = Both(values: seq<Tensor>, params: TensorParams) | ParamsOnly(params: TensorParams)

  /** Every tensor in the result has one shape, of rank at least 2. */
  predicate OneShape(m: Mixed)
  {
    var vs := if m.Both? then m.values else [];
    |m.params| > 0 &&
    |m.params[0].1.shape| >= 2 &&
    (forall i :: 0 <= i < |vs| ==> vs[i].shape == m.params[0].1.shape) &&
    (forall i :: 0 <= i < |m.params| ==> m.params[i].1.shape == m.params[0].1.shape)
  }

  /** The positional values followed by the keyword values, as tensors, or the
      AssertionError of the tensor check. */
  function TensorArgs(xs: seq<PyData>, params: Params): (r: Result<seq<Tensor>>)
    requires forall i :: 0 <= i < |xs| ==> xs[i].Valid()
    requires AllValid(params)
    ensures r.Ok? <==>
      (forall i :: 0 <= i < |xs| ==> xs[i].TorchTensor?) && (forall j :: 0 <= j < |params| ==> params[j].1.TorchTensor?)
    ensures r.Err? ==> r.error == AssertionError
    ensures r.Ok? ==> |r.value| == |xs| + |params| && ValidTensors(r.value)
    ensures r.Ok? ==> forall i :: 0 <= i < |xs| ==> xs[i] == TorchTensor(r.value[i])
    ensures r.Ok? ==> forall j :: 0 <= j < |params| ==> params[j].1 == TorchTensor(r.value[|xs| + j])
  {
    var all := xs + ParamValues(params);
    assert forall i :: 0 <= i < |xs| ==> all[i] == xs[i];
    assert forall j :: 0 <= j < |params| ==> all[|xs| + j] == params[j].1;
    assert (forall i :: 0 <= i < |all| ==> all[i].TorchTensor?) <==>
      (forall i :: 0 <= i < |xs| ==> xs[i].TorchTensor?) && (forall j :: 0 <= j < |params| ==> params[j].1.TorchTensor?) by {
      forall i | 0 <= i < |all| && i >= |xs|
        ensures all[i] == params[i - |xs|].1
      {
      }
    }
    var r := AsTensors(all);
    if r.Ok? then
      assert forall i :: 0 <= i < |all| ==> r.value[i] == all[i].t && all[i].Valid();
      r
    else
      r
  }

  /** `broadcast_and_squeeze_mixed`: broadcasts positional values and keyword values
      together and gives the keyword values back under their names. An empty dict cannot be
      unpacked (ValueError); a value that is not a torch tensor fails the tensor assertion. */
  function BroadcastAndSqueezeMixed(xs: seq<PyData>, params: Params): (r: Result<Mixed>)
    requires forall i :: 0 <= i < |xs| ==> xs[i].Valid()
    requires AllValid(params)
    ensures |params| == 0 ==> r == Err(ValueError)
    ensures |params| > 0 && TensorArgs(xs, params).Err? ==> r == Err(AssertionError)
    ensures r.Ok? <==>
      (|params| > 0 && TensorArgs(xs, params).Ok? && BroadcastAndSqueeze(TensorArgs(xs, params).value).Ok?)
    ensures r.Ok? ==> (r.value.Both? <==> |xs| > 0)
    ensures r.Ok? && r.value.Both? ==> |r.value.values| == |xs|
    ensures r.Ok? ==> KeyList(r.value.params) == KeyList(params)
    ensures r.Ok? ==> OneShape(r.value)
    ensures r.Err? ==> r.error in {ValueError, AssertionError, RuntimeError}
  {
    if |params| == 0 then Err(ValueError)
    else
      match TensorArgs(xs, params)
      case Err(e) => Err(e)
      case Ok(ts) => BroadcastRegroup(|xs|, KeyList(params), ts)
  }

  /** Broadcasts the tensors of `n` positional and `|keys|` named arguments together and
      splits the result back into the two groups. */
  function BroadcastRegroup(n: nat, keys: seq<string>, ts: seq<Tensor>): (r: Result<Mixed>)
    requires ValidTensors(ts) && |keys| > 0 && |ts| == n + |keys|
    ensures r.Ok? <==> BroadcastAndSqueeze(ts).Ok?
    ensures r.Ok? ==> r.value == Regroup(n, keys, BroadcastAndSqueeze(ts).value)
    ensures r.Ok? ==> (r.value.Both? <==> n > 0) && (r.value.Both? ==> |r.value.values| == n)
    ensures r.Ok? ==> KeyList(r.value.params) == keys && OneShape(r.value)
    ensures r.Err? ==> r.error in {ValueError, RuntimeError}
  {
    match BroadcastAndSqueeze(ts)
    case Err(e) => Err(e)
    case Ok(bs) => Ok(Regroup(n, keys, bs))
  }

  /** Every tensor of `bs` takes its elements from the tensor of `ts` at its position. */
  predicate EachFrom(bs: seq<Tensor>, ts: seq<Tensor>)
  {
    |bs| == |ts| && forall i :: 0 <= i < |ts| ==> ElementsFrom(bs[i], ts[i])
  }

  /** Keyword value `j` that `broadcast_and_squeeze_mixed` gives back takes its elements from
      the tensor given under that name. */
  lemma BroadcastAndSqueezeMixedSource(xs: seq<PyData>, params: Params, j: nat)
    requires forall i :: 0 <= i < |xs| ==> xs[i].Valid()
    requires AllValid(params) && BroadcastAndSqueezeMixed(xs, params).Ok? && j < |params|
    ensures params[j].1.TorchTensor?
    ensures ElementsFrom(BroadcastAndSqueezeMixed(xs, params).value.params[j].1, params[j].1.t)
  {
    var ts, bs := MixedSteps(xs, params);
    var k := |xs| + j;
    assert ElementsFrom(bs[k], ts[k]);
  }

  /** Keyword value `j` that `broadcast_and_squeeze_mixed` gives back is the broadcast of the
      arguments as tensors, at the position after the positional ones. */
  lemma BroadcastAndSqueezeMixedValue(xs: seq<PyData>, params: Params, j: nat)
    requires forall i :: 0 <= i < |xs| ==> xs[i].Valid()
    requires AllValid(params) && BroadcastAndSqueezeMixed(xs, params).Ok? && j < |params|
    ensures TensorArgs(xs, params).Ok?
    ensures BroadcastAndSqueeze(TensorArgs(xs, params).value).Ok?
    ensures |xs| + j < |TensorArgs(xs, params).value|
    ensures BroadcastAndSqueezeMixed(xs, params).value.params[j].1 ==
      BroadcastAndSqueeze(TensorArgs(xs, params).value).value[|xs| + j]
  {
    var ts, bs := MixedSteps(xs, params);
  }

  /** The intermediate results of a successful `broadcast_and_squeeze_mixed`: the arguments as
      tensors and their broadcast, which the keyword values are read from. */
  lemma MixedSteps(xs: seq<PyData>, params: Params) returns (ts: seq<Tensor>, bs: seq<Tensor>)
    requires forall i :: 0 <= i < |xs| ==> xs[i].Valid()
    requires AllValid(params) && BroadcastAndSqueezeMixed(xs, params).Ok?
    ensures TensorArgs(xs, params) == Ok(ts) && BroadcastAndSqueeze(ts) == Ok(bs)
    ensures |ts| == |xs| + |params| && forall j :: 0 <= j < |params| ==> params[j].1 == TorchTensor(ts[|xs| + j])
    ensures EachFrom(bs, ts)
    ensures forall j :: 0 <= j < |params| ==> BroadcastAndSqueezeMixed(xs, params).value.params[j].1 == bs[|xs| + j]
  {
    ts := TensorArgs(xs, params).value;
    bs := BroadcastAndSqueeze(ts).value;
    var m := Regroup(|xs|, KeyList(params), bs);
    assert BroadcastAndSqueezeMixed(xs, params) == Ok(m);
    RegroupValues(|xs|, KeyList(params), bs, m);
  }

  lemma RegroupValues(n: nat, keys: seq<string>, bs: seq<Tensor>, m: Mixed)
    requires |bs| == n + |keys| && m == Regroup(n, keys, bs)
    ensures |m.params| == |keys| && forall j :: 0 <= j < |keys| ==> m.params[j].1 == bs[n + j]
  {
  }

  /** Splits broadcast tensors back into `n` positional values and the named ones. */
  function Regroup(n: nat, keys: seq<string>, bs: seq<Tensor>): (m: Mixed)
    requires |bs| == n + |keys|
    ensures m.Both? <==> n > 0
    ensures m.Both? ==> m.values == bs[..n]
    ensures |m.params| == |keys|
    ensures forall j :: 0 <= j < |keys| ==> m.params[j].0 == keys[j]
    ensures forall j :: 0 <= j < |keys| ==> m.params[j].1 == bs[n + j]
    ensures KeyList(m.params) == keys
    ensures |keys| > 0 && SharedShape(bs) ==> OneShape(m)
  {
    var ps := Zip(keys, bs[n..]);
    assert |keys| > 0 ==> ps[0].1 == bs[n];
    if n > 0 then Both(bs[..n], ps) else ParamsOnly(ps)
  }


  /** Each named parameter of `broadcast_and_squeeze_mixed` comes back under its own name,
      with values taken from the tensor it was given. */
  lemma BroadcastAndSqueezeMixedLookup(xs: seq<PyData>, params: Params, i: nat)
    requires forall j :: 0 <= j < |xs| ==> xs[j].Valid()
    requires AllValid(params) && DistinctKeys(params)
    requires BroadcastAndSqueezeMixed(xs, params).Ok? && i < |params|
    ensures params[i].1.TorchTensor?
    ensures Lookup(BroadcastAndSqueezeMixed(xs, params).value.params, params[i].0).Some?
    ensures ElementsFrom(Lookup(BroadcastAndSqueezeMixed(xs, params).value.params, params[i].0).value, params[i].1.t)
  {
    var ps := BroadcastAndSqueezeMixed(xs, params).value.params;
    BroadcastAndSqueezeMixedSource(xs, params, i);
    LookupSameKeys(ps, params, i);
  }

  /** Looking up the name of entry `i` of a distinct-named list in a list with the same names
      in the same order finds that list's entry `i`. */
  lemma LookupSameKeys<V, W>(ps: seq<(string, V)>, params: seq<(string, W)>, i: nat)
    requires KeyList(ps) == KeyList(params) && DistinctKeys(params) && i < |params|
    ensures i < |ps| && Lookup(ps, params[i].0) == Some(ps[i].1)
  {
    assert forall j :: 0 <= j < |ps| ==> ps[j].0 == KeyList(ps)[j] == params[j].0;
    LookupDistinct(ps, i);
  }

  /** In a list with distinct names, looking up the name of entry `i` finds entry `i`. */
  lemma LookupDistinct<V>(p: seq<(string, V)>, i: nat)
    requires DistinctKeys(p) && i < |p|
    ensures Lookup(p, p[i].0) == Some(p[i].1)
  {
    if i > 0 {
      assert p[0].0 != p[i].0;
      assert p[1..][i - 1] == p[i];
      LookupDistinct(p[1..], i - 1);
    }
  }
}
