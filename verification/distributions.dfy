/** The calling convention of `brancher/distributions.py`: `calculate_log_probability` and
    `get_sample` check the required parameters, let the family's strategy prepare the
    parameters, call the law, and shape its result. */
module Distributions {
  import opened Wrappers
  import opened Shapes
  import opened Tensors
  import opened Data
  import opened Utilities
  import opened Reshaping
  import opened Empirical
  import opened Parameters
  import opened Laws

  /** A value read from valid parameters is valid. */
  lemma LookupValid(params: Params, key: string)
    requires AllValid(params) && key in Keys(params)
    ensures Lookup(params, key).Some? && Lookup(params, key).value.Valid()
  {
    var i :| 0 <= i < |params| && params[i] == (key, Lookup(params, key).value);
  }

  /** An optional value read from valid parameters is valid when present. */
  lemma OptionalValid(params: Params, key: string)
    requires AllValid(params)
    ensures Lookup(params, key).Some? ==> Lookup(params, key).value.Valid()
  {
    if key in Keys(params) {
      LookupValid(params, key);
    }
  }

  lemma LookupTensorValid(ps: TensorParams, key: string)
    requires AllTensorsValid(ps) && key in Keys(ps)
    ensures Lookup(ps, key).Some? && Lookup(ps, key).value.Valid()
  {
    var i :| 0 <= i < |ps| && ps[i] == (key, Lookup(ps, key).value);
  }

  /** Adding a valid value keeps the parameters valid. */
  lemma {:induction false} UpdateValid(params: Params, key: string, v: PyData)
    requires AllValid(params) && v.Valid()
    ensures AllValid(Update(params, key, v))
  {
    if |params| > 0 && params[0].0 != key {
      UpdateValid(params[1..], key, v);
      var r := Update(params, key, v);
      assert forall i :: 1 <= i < |r| ==> r[i] == Update(params[1..], key, v)[i - 1];
    }
  }

  // ---------------------------------------------------------------------------------
  // UnivariateDistribution

  /** A law built from parameters of one shape has that shape. */
  lemma LawShape(law: Law, ps: TensorParams, s: Shape)
    requires |law.args| > 0 && FromParams(law.args, ps)
    requires forall i :: 0 <= i < |ps| ==> ps[i].1.shape == s
    ensures law.args[0].shape == s
  {
    var vs := ParamTensors(ps);
    assert law.args[0] in vs;
    var j :| 0 <= j < |vs| && vs[j] == law.args[0];
  }

  /** Parameters that all have one shape, of rank at least 2. */
  predicate ShapedAs(ps: TensorParams, s: Shape)
  {
    |s| >= 2 && forall i :: 0 <= i < |ps| ==> ps[i].1.shape == s
  }

  /** `UnivariateDistribution._preprocess_parameters_for_log_prob`: the observation and the
      parameters broadcast together to one shape. */
  function UnivariateLogProbPreprocess(x: PyData, params: Params): (r: Result<(Tensor, TensorParams)>)
    requires x.Valid() && AllValid(params)
    ensures r.Ok? <==> BroadcastAndSqueezeMixed([x], params).Ok?
    ensures r.Err? ==> r.error == BroadcastAndSqueezeMixed([x], params).error
    ensures r.Err? ==> r.error in {ValueError, AssertionError, RuntimeError}
    ensures r.Ok? ==> KeyList(r.value.1) == KeyList(params) && ShapedAs(r.value.1, r.value.0.shape)
  {
    var m :- BroadcastAndSqueezeMixed([x], params);
    Ok((m.values[0], m.params))
  }

  /** `UnivariateDistribution._preprocess_parameters_for_sampling`: the parameters
      broadcast to one shape. */
  function UnivariateSamplingPreprocess(params: Params): (r: Result<TensorParams>)
    requires AllValid(params)
    ensures r.Ok? <==> BroadcastAndSqueezeMixed([], params).Ok?
    ensures r.Err? ==> r.error == BroadcastAndSqueezeMixed([], params).error
    ensures r.Ok? ==> KeyList(r.value) == KeyList(params) && |r.value| > 0 && ShapedAs(r.value, r.value[0].1.shape)
  {
    var m :- BroadcastAndSqueezeMixed([], params);
    Ok(m.params)
  }

  /** The log-probability of a univariate family before `sum_data_dimensions`: the law
      scores every element of the common shape. */
  function UnivariateLogProb(f: Family, o: Oracle, x: PyData, params: Params): (r: Result<Tensor>)
    requires StrategyOf(f).Univariate? && x.Valid() && AllValid(params)
    ensures UnivariateLogProbPreprocess(x, params).Err? ==> r == Err(UnivariateLogProbPreprocess(x, params).error)
    ensures UnivariateLogProbPreprocess(x, params).Ok? ==>
      (r.Ok? <==> UnivariateLaw(f, UnivariateLogProbPreprocess(x, params).value.1).Ok?)
    ensures r.Ok? ==> (r.value.Valid() && UnivariateLogProbPreprocess(x, params).Ok? &&
      r.value.shape == UnivariateLogProbPreprocess(x, params).value.0.shape)
  {
    var (xv, ps) :- UnivariateLogProbPreprocess(x, params);
    var law :- UnivariateLaw(f, ps);
    LawShape(law, ps, xv.shape);
    LogProb(o, law, xv)
  }

  /** A draw of a univariate family, of the common shape of the parameters. */
  function UnivariateSample(f: Family, o: Oracle, params: Params): (r: Result<Tensor>)
    requires StrategyOf(f).Univariate? && AllValid(params)
    ensures UnivariateSamplingPreprocess(params).Err? ==> r == Err(UnivariateSamplingPreprocess(params).error)
    ensures UnivariateSamplingPreprocess(params).Ok? ==>
      (r.Ok? <==> UnivariateLaw(f, UnivariateSamplingPreprocess(params).value).Ok?)
    ensures r.Ok? ==> (r.value.Valid() && UnivariateSamplingPreprocess(params).Ok? &&
      r.value.shape == UnivariateSamplingPreprocess(params).value[0].1.shape)
  {
    var ps :- UnivariateSamplingPreprocess(params);
    var law :- UnivariateLaw(f, ps);
    LawShape(law, ps, ps[0].1.shape);
    Sample(o, law)
  }

  // ---------------------------------------------------------------------------------
  // ImplicitDistribution

  /** `ImplicitDistribution._calculate_log_probability`: a 1x1 zero whatever it is given. */
  function ImplicitLogProb(): (r: Tensor)
    ensures r.Valid() && r.shape == [1, 1]
    ensures Values(r) == {0.0}
  {
    var r := Filled([1, 1], 0.0);
    ProdPair(1, 1);
    assert r.data[0] == 0.0;
    r
  }

  // ---------------------------------------------------------------------------------
  // VectorDistribution

  /** The keyword names `CategoricalDistribution` lists in `vector_parameters`. */
  predicate IsVectorParameter(name: string)
  {
    name == "p" || name == "softmax_p"
  }

  /** The values of `broadcast_parent_values` are valid and keep a batch axis. */
  lemma FlattenedValid(parents: Params)
    requires AllValid(parents) && BroadcastParentValues(parents).Ok?
    ensures var ps := BroadcastParentValues(parents).value.params;
      |ps| == |parents| && AllTensorsValid(ps) && forall i :: 0 <= i < |ps| ==> |ps[i].1.shape| > 0
  {
    var ps := BroadcastParentValues(parents).value.params;
    assert |ps| == |KeyList(parents)|;
    forall i | 0 <= i < |ps|
      ensures ps[i].1.Valid() && |ps[i].1.shape| > 0
    {
      BroadcastParentValuesShape(parents, i);
    }
  }

  /** `VectorDistribution._preprocess_parameters_for_log_prob`: the observation joins the
      parameters under the name `x_data`, everything is broadcast and folded together, and
      the folded observation is taken back out. */
  function VectorLogProbPreprocess(x: PyData, params: Params): (r: Result<(Tensor, Flattened)>)
    requires x.Valid() && AllValid(params)
    ensures AllValid(Update(params, "x_data", x))
    ensures r.Ok? <==> BroadcastParentValues(Update(params, "x_data", x)).Ok?
    ensures r.Err? ==> r.error == BroadcastParentValues(Update(params, "x_data", x)).error
    ensures r.Ok? ==> r.value.0.Valid() && AllTensorsValid(r.value.1.params)
    ensures r.Ok? ==> var f := BroadcastParentValues(Update(params, "x_data", x)).value;
      r.value.1.numberSamples == f.numberSamples && r.value.1.numberDatapoints == f.numberDatapoints &&
      Lookup(f.params, "x_data") == Some(r.value.0)
  {
    UpdateValid(params, "x_data", x);
    var joint := Update(params, "x_data", x);
    var f :- BroadcastParentValues(joint);
    SameKeys(f.params, joint);
    FlattenedValid(joint);
    assert "x_data" in Keys(f.params);
    var xv := Lookup(f.params, "x_data").value;
    LookupTensorValid(f.params, "x_data");
    RemoveValid(f.params, "x_data");
    Ok((xv, Flattened(Remove(f.params, "x_data"), f.numberSamples, f.numberDatapoints)))
  }

  /** The parameters come back under the names they were given, without `x_data`. */
  lemma VectorLogProbNames(x: PyData, params: Params)
    requires x.Valid() && AllValid(params) && VectorLogProbPreprocess(x, params).Ok?
    ensures Keys(VectorLogProbPreprocess(x, params).value.1.params) == Keys(params) - {"x_data"}
  {
    var joint := Update(params, "x_data", x);
    var f := BroadcastParentValues(joint).value;
    SameKeys(f.params, joint);
  }

  /** The observation comes out folded like the parameters: one batch axis of
      `number_samples * number_datapoints` entries, then its own event axes. */
  lemma VectorLogProbObservation(x: PyData, params: Params)
    requires x.Valid() && AllValid(params) && DistinctKeys(params)
    requires VectorLogProbPreprocess(x, params).Ok?
    ensures x.TorchTensor?
    ensures var (xv, f) := VectorLogProbPreprocess(x, params).value;
      xv.shape == [f.numberSamples * f.numberDatapoints] + x.t.shape[2..]
  {
    var joint := Update(params, "x_data", x);
    UpdateDistinct(params, "x_data", x);
    var f := BroadcastParentValues(joint).value;
    var i :| 0 <= i < |joint| && joint[i] == ("x_data", x);
    LookupSameKeys(f.params, joint, i);
    BroadcastParentValuesShape(joint, i);
  }

  /** The log-probability of a vector family before `sum_data_dimensions`: the law's
      output, one number per folded batch entry, viewed as samples by datapoints. */
  function VectorLogProb(o: Oracle, x: PyData, params: Params): (r: Result<Tensor>)
    requires x.Valid() && AllValid(params)
    ensures VectorLogProbPreprocess(x, params).Err? ==> r == Err(VectorLogProbPreprocess(x, params).error)
    ensures r.Ok? ==> var f := VectorLogProbPreprocess(x, params).value.1;
      r.value.Valid() && r.value.shape == [f.numberSamples, f.numberDatapoints]
    ensures r.Err? ==> r.error in {ValueError, AssertionError, IndexError, RuntimeError}
  {
    var (xv, f) :- VectorLogProbPreprocess(x, params);
    var (law, value) :- CategoricalLogProbLaw(xv, f.params);
    var lp :- LogProb(o, law, value);
    View(lp, [f.numberSamples, f.numberDatapoints])
  }

  /** The law's output has one number per sample and datapoint exactly when the postprocess
      view succeeds, and the view then keeps the numbers in order. */
  lemma VectorLogProbCount(o: Oracle, x: PyData, params: Params)
    requires x.Valid() && AllValid(params) && VectorLogProbPreprocess(x, params).Ok?
    requires var (xv, f) := VectorLogProbPreprocess(x, params).value;
      CategoricalLogProbLaw(xv, f.params).Ok?
    ensures var (xv, f) := VectorLogProbPreprocess(x, params).value;
      var (law, value) := CategoricalLogProbLaw(xv, f.params).value;
      LogProb(o, law, value).Ok? ==>
        (VectorLogProb(o, x, params).Ok? <==> Prod(LogProb(o, law, value).value.shape) == f.numberSamples * f.numberDatapoints) &&
        (VectorLogProb(o, x, params).Ok? ==> VectorLogProb(o, x, params).value.data == LogProb(o, law, value).value.data)
  {
    var (xv, f) := VectorLogProbPreprocess(x, params).value;
    ProdPair(f.numberSamples, f.numberDatapoints);
  }

  /** `view(size=(shape[0], np.prod(shape[1:])))`: a matrix with one row per batch entry.
      For a tensor of rank 1, `np.prod([])` is the float `1.0`, and `view` refuses a float
      size with a TypeError. */
  function Matrix(t: Tensor): (r: Result<Tensor>)
    requires t.Valid() && |t.shape| > 0
    ensures r.Ok? <==> |t.shape| > 1
    ensures r.Err? ==> r.error == TypeError
    ensures r.Ok? ==> r.value.Valid() && r.value.shape == [t.shape[0], Prod(t.shape[1..])] && r.value.data == t.data
  {
    if |t.shape| == 1 then Err(TypeError)
    else
      ProdPair(t.shape[0], Prod(t.shape[1..]));
      View(t, [t.shape[0], Prod(t.shape[1..])])
  }

  /** The vector parameters as matrices, the others as they are; the TypeError of the first
      vector parameter of rank 1. */
  function ReshapeVectors(ps: TensorParams): (r: Result<TensorParams>)
    requires AllTensorsValid(ps) && forall i :: 0 <= i < |ps| ==> |ps[i].1.shape| > 0
    ensures r.Ok? <==> forall i :: 0 <= i < |ps| && IsVectorParameter(ps[i].0) ==> |ps[i].1.shape| > 1
    ensures r.Err? ==> r.error == TypeError
    ensures r.Ok? ==> |r.value| == |ps| && KeyList(r.value) == KeyList(ps)
    ensures r.Ok? ==> forall i :: 0 <= i < |ps| && IsVectorParameter(ps[i].0) ==> r.value[i].1 == Matrix(ps[i].1).value
    ensures r.Ok? ==> forall i :: 0 <= i < |ps| && !IsVectorParameter(ps[i].0) ==> r.value[i].1 == ps[i].1
  {
    if forall i :: 0 <= i < |ps| && IsVectorParameter(ps[i].0) ==> |ps[i].1.shape| > 1 then
      Ok(seq(|ps|, i requires 0 <= i < |ps| =>
        (ps[i].0, if IsVectorParameter(ps[i].0) then Matrix(ps[i].1).value else ps[i].1)))
    else
      Err(TypeError)
  }

  /** The position of the first vector parameter, in parameter order. */
  function FirstVector<V>(ps: seq<(string, V)>): (r: Option<nat>)
    ensures r.Some? <==> exists i :: 0 <= i < |ps| && IsVectorParameter(ps[i].0)
    ensures r.Some? ==> r.value < |ps| && IsVectorParameter(ps[r.value].0)
    ensures r.Some? ==> forall i :: 0 <= i < r.value ==> !IsVectorParameter(ps[i].0)
  {
    if |ps| == 0 then None
    else if IsVectorParameter(ps[0].0) then Some(0)
    else
      match FirstVector(ps[1..])
      case None =>
        assert forall i :: 1 <= i < |ps| ==> ps[i] == ps[1..][i - 1];
        None
      case Some(k) =>
        assert forall i :: 1 <= i < |ps| ==> ps[i] == ps[1..][i - 1];
        Some(k + 1)
  }

  /** `VectorDistribution._preprocess_parameters_for_sampling`: the folded parameters with
      the vector ones as matrices, and the shape of the draw: samples, datapoints, and the
      event axes of the first vector parameter (an IndexError when there is none). */
  function VectorSamplingPreprocess(params: Params): (r: Result<(TensorParams, Shape)>)
    requires AllValid(params)
    ensures BroadcastParentValues(params).Err? ==> r == Err(BroadcastParentValues(params).error)
    ensures BroadcastParentValues(params).Ok? ==> (r.Ok? <==> (FirstVector(params).Some? &&
      var f := BroadcastParentValues(params).value;
      forall i :: 0 <= i < |f.params| && IsVectorParameter(f.params[i].0) ==> |f.params[i].1.shape| > 1))
    ensures BroadcastParentValues(params).Ok? && r.Err? ==> r.error in {IndexError, TypeError}
    ensures r.Ok? ==> KeyList(r.value.0) == KeyList(params)
    ensures r.Ok? ==> var f := BroadcastParentValues(params).value;
      |f.params| == |params| && AllTensorsValid(f.params) &&
      (forall i :: 0 <= i < |params| ==> |f.params[i].1.shape| > 0) &&
      r.value.0 == ReshapeVectors(f.params).value
    ensures r.Ok? ==> var f := BroadcastParentValues(params).value;
      var k := FirstVector(params).value;
      params[k].1.TorchTensor? &&
      r.value.1 == [f.numberSamples, f.numberDatapoints] + params[k].1.t.shape[2..]
  {
    var f :- BroadcastParentValues(params);
    FlattenedValid(params);
    assert KeyList(f.params) == KeyList(params);
    var ps :- ReshapeVectors(f.params);
    match FirstVector(params)
    case None => Err(IndexError)
    case Some(k) =>
      BroadcastParentValuesShape(params, k);
      Ok((ps, [f.numberSamples, f.numberDatapoints] + f.params[k].1.shape[1..]))
  }

  /** After preprocessing, the first vector parameter is the matrix of its folded value. */
  lemma FirstVectorMatrix(params: Params)
    requires AllValid(params) && VectorSamplingPreprocess(params).Ok?
    ensures var ps := VectorSamplingPreprocess(params).value.0;
      var f := BroadcastParentValues(params).value;
      var k := FirstVector(params).value;
      k < |ps| && k < |f.params| && f.params[k].1.Valid() && |f.params[k].1.shape| > 1 &&
      ps[k].1 == Matrix(f.params[k].1).value
  {
    var ps := VectorSamplingPreprocess(params).value.0;
    var f := BroadcastParentValues(params).value;
    var k := FirstVector(params).value;
    assert ps == ReshapeVectors(f.params).value;
    assert f.params[k].0 == params[k].0 by {
      assert KeyList(f.params)[k] == KeyList(params)[k];
    }
    assert IsVectorParameter(f.params[k].0);
  }

  /** The draw shape holds as many elements as the first vector parameter's matrix, so
      viewing a draw of that matrix's shape to the draw shape succeeds and viewing it back
      restores it. */
  lemma VectorSampleRoundTrip(params: Params, pre: Tensor)
    requires AllValid(params) && VectorSamplingPreprocess(params).Ok?
    requires var (ps, shape) := VectorSamplingPreprocess(params).value;
      pre.Valid() && pre.shape == ps[FirstVector(params).value].1.shape
    ensures var (ps, shape) := VectorSamplingPreprocess(params).value;
      View(pre, shape).Ok? && View(View(pre, shape).value, pre.shape) == Ok(pre)
  {
    var (ps, shape) := VectorSamplingPreprocess(params).value;
    var f := BroadcastParentValues(params).value;
    var k := FirstVector(params).value;
    BroadcastParentValuesCount(params, k);
    var event := params[k].1.t.shape[2..];
    assert |pre.data| == f.numberSamples * f.numberDatapoints * Prod(event) by {
      assert f.params[k].1.shape[1..] == event by {
        BroadcastParentValuesShape(params, k);
      }
      FirstVectorMatrix(params);
      ProdPair(f.numberSamples * f.numberDatapoints, Prod(event));
    }
    ProdConcat([f.numberSamples, f.numberDatapoints], event);
    ProdPair(f.numberSamples, f.numberDatapoints);
  }

  /** A draw of a vector family: from the law `CategoricalDistribution` picks, viewed to the
      draw shape. */
  function VectorSample(o: Oracle, params: Params): (r: Result<Tensor>)
    requires AllValid(params)
    ensures VectorSamplingPreprocess(params).Err? ==> r == Err(VectorSamplingPreprocess(params).error)
    ensures r.Ok? ==> r.value.Valid() && r.value.shape == VectorSamplingPreprocess(params).value.1
    ensures r.Err? ==> r.error in {ValueError, AssertionError, IndexError, RuntimeError, TypeError}
  {
    var (ps, shape) :- VectorSamplingPreprocess(params);
    var law :- CategoricalSampleLaw(ps);
    var pre :- Sample(o, law);
    View(pre, shape)
  }

  /** When the law draws from the first vector parameter (`p` comes first, or there is no
      `p`), the draw always fits the draw shape and keeps the law's numbers in order. */
  lemma VectorSampleFits(o: Oracle, params: Params)
    requires AllValid(params) && DistinctKeys(params) && VectorSamplingPreprocess(params).Ok?
    requires params[FirstVector(params).value].0 == "p" || "p" !in Keys(params)
    ensures VectorSample(o, params).Ok?
    ensures var (ps, shape) := VectorSamplingPreprocess(params).value;
      CategoricalSampleLaw(ps).Ok? && Sample(o, CategoricalSampleLaw(ps).value).Ok? &&
      VectorSample(o, params).value.data == Sample(o, CategoricalSampleLaw(ps).value).value.data
  {
    var (ps, shape) := VectorSamplingPreprocess(params).value;
    var f := BroadcastParentValues(params).value;
    var k := FirstVector(params).value;
    SameKeys(ps, params);
    LookupSameKeys(ps, params, k);
    FirstVectorMatrix(params);
    var law := CategoricalSampleLaw(ps).value;
    assert law.args[0] == ps[k].1;
    VectorSampleRoundTrip(params, Sample(o, law).value);
  }

  // ---------------------------------------------------------------------------------
  // Distribution

  /** The log-probability the family's strategy makes: its preprocessing, the law and its
      postprocessing. It has samples and datapoints as its first two axes. */
  function StrategyLogProb(f: Family, o: Oracle, x: PyData, params: Params): (r: Result<Tensor>)
    requires x.Valid() && AllValid(params)
    ensures r.Ok? ==> r.value.Valid() && |r.value.shape| >= 2
    ensures f.EmpiricalData? ==> r == Ok(ImplicitLogProb())
    ensures StrategyOf(f).Univariate? && r.Ok? ==>
      (UnivariateLogProbPreprocess(x, params).Ok? && r.value.shape == UnivariateLogProbPreprocess(x, params).value.0.shape)
    ensures f == Categorical && r.Ok? ==> (VectorLogProbPreprocess(x, params).Ok? &&
      var fl := VectorLogProbPreprocess(x, params).value.1;
      r.value.shape == [fl.numberSamples, fl.numberDatapoints])
    ensures r.Err? && r.error == KeyError ==>
      (StrategyOf(f).Univariate? && UnivariateLogProbPreprocess(x, params).Ok? &&
        UnivariateLaw(f, UnivariateLogProbPreprocess(x, params).value.1).Err?)
  {
    match StrategyOf(f)
    case Univariate => UnivariateLogProb(f, o, x, params)
    case Implicit =>
      ProdPair(1, 1);
      Ok(ImplicitLogProb())
    case Vector => VectorLogProb(o, x, params)
  }

  /** `calculate_log_probability`: the parameter check, the strategy's log-probability,
      and `sum_data_dimensions`, which leaves samples by datapoints and keeps the total. */
  function CalculateLogProbability(f: Family, o: Oracle, x: PyData, params: Params): (r: Result<Tensor>)
    requires x.Valid() && AllValid(params)
    ensures CheckParameters(RequiredParameters(f), params).Fail? ==> r == Err(AssertionError)
    ensures CheckParameters(RequiredParameters(f), params).Pass? ==>
      (r.Ok? <==> StrategyLogProb(f, o, x, params).Ok?)
    ensures CheckParameters(RequiredParameters(f), params).Pass? && r.Err? ==>
      r.error == StrategyLogProb(f, o, x, params).error
    ensures r.Ok? ==> (StrategyLogProb(f, o, x, params).Ok? && r.value.Valid() && |r.value.shape| == 2 &&
      r.value.shape == StrategyLogProb(f, o, x, params).value.shape[..2] &&
      Sum(r.value.data) == Sum(StrategyLogProb(f, o, x, params).value.data))
  {
    if CheckParameters(RequiredParameters(f), params).Fail? then Err(AssertionError)
    else
      var lp :- StrategyLogProb(f, o, x, params);
      Ok(SumDataDimensions(lp))
  }

  /** The log-probability of the empirical distribution is the 1x1 zero once its check
      passes. */
  lemma EmpiricalLogProbability(f: Family, o: Oracle, x: PyData, params: Params)
    requires x.Valid() && AllValid(params) && f.EmpiricalData?
    requires CheckParameters(RequiredParameters(f), params).Pass?
    ensures CalculateLogProbability(f, o, x, params) == Ok(ImplicitLogProb())
  {
    var z := ImplicitLogProb();
    assert z.shape[..2] == z.shape;
    assert SumDataDimensions(z) == SumTrailing(z, 2);
  }

  /** Once the check passes, every parameter the code reads is there: no KeyError. */
  lemma CalculateLogProbabilityReads(f: Family, o: Oracle, x: PyData, params: Params)
    requires x.Valid() && AllValid(params)
    ensures CalculateLogProbability(f, o, x, params).Err? ==>
      CalculateLogProbability(f, o, x, params).error != KeyError
  {
    if CheckParameters(RequiredParameters(f), params).Pass? && StrategyOf(f).Univariate? {
      var m := UnivariateLogProbPreprocess(x, params);
      if m.Ok? {
        SameKeys(m.value.1, params);
        UnivariateLawChecked(f, params, m.value.1);
      }
    }
  }

  /** `get_sample`: the parameter check, the family's preprocessing, the draw and the
      postprocessing. */
  function GetSample(f: Family, o: Oracle, params: Params, rolls: seq<nat>): (r: Result<PyData>)
    requires AllValid(params)
    ensures CheckParameters(RequiredParameters(f), params).Fail? ==> r == Err(AssertionError)
    ensures StrategyOf(f).Univariate? && r.Ok? ==>
      UnivariateSample(f, o, params).Ok? && r.value == TorchTensor(UnivariateSample(f, o, params).value)
    ensures f == Categorical && r.Ok? ==>
      VectorSample(o, params).Ok? && r.value == TorchTensor(VectorSample(o, params).value)
    ensures f.EmpiricalData? && CheckParameters(RequiredParameters(f), params).Pass? ==>
      "dataset" in Keys(params) && Lookup(params, "dataset").value.Valid() &&
      (Lookup(params, "indices").Some? ==> Lookup(params, "indices").value.Valid()) &&
      (Lookup(params, "weights").Some? ==> Lookup(params, "weights").value.Valid()) &&
      r == EmpiricalSample(Lookup(params, "dataset").value, Lookup(params, "indices"), Lookup(params, "weights"),
                           f.batchSize, f.observed, rolls)
  {
    if CheckParameters(RequiredParameters(f), params).Fail? then Err(AssertionError)
    else
      match f
      case EmpiricalData(batchSize, observed) =>
        CheckedNames(f, params, "dataset");
        LookupValid(params, "dataset");
        OptionalValid(params, "indices");
        OptionalValid(params, "weights");
        EmpiricalSample(Lookup(params, "dataset").value, Lookup(params, "indices"), Lookup(params, "weights"),
                        batchSize, observed, rolls)
      case Categorical =>
        var s :- VectorSample(o, params);
        Ok(TorchTensor(s))
      case _ =>
        var s :- UnivariateSample(f, o, params);
        Ok(TorchTensor(s))
  }

  /** Once the check passes, a univariate family reads every parameter it needs: its draw
      fails only when broadcasting does. */
  lemma GetSampleReads(f: Family, o: Oracle, params: Params, rolls: seq<nat>)
    requires AllValid(params) && StrategyOf(f).Univariate?
    requires CheckParameters(RequiredParameters(f), params).Pass?
    ensures GetSample(f, o, params, rolls).Ok? <==> BroadcastAndSqueezeMixed([], params).Ok?
  {
    var m := UnivariateSamplingPreprocess(params);
    if m.Ok? {
      SameKeys(m.value, params);
      UnivariateLawChecked(f, params, m.value);
    }
  }
}
