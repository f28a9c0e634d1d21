/** The torch probability laws the families call, and how each family picks its law and
    the law's arguments from its parameters. The laws' numerics are an `Oracle`; the model
    fixes the shapes of what they return and which tensors they are given. */
module Laws {
  import opened Wrappers
  import opened Shapes
  import opened Tensors
  import opened Data
  import opened Parameters

  /** The torch laws: `Normal`, `LogNormal`, `Cauchy`, `Laplace` and `Beta`, `Binomial` with
      probabilities or with logits, `OneHotCategorical` with probabilities or with logits,
      and `Categorical` with logits. */
  datatype LawId =
    | NormalLaw
    | LogNormalLaw
    | CauchyLaw
    | LaplaceLaw
    | BetaLaw
    | BinomialProbs
    | BinomialLogits
    | OneHotProbs
    | OneHotLogits
    | CategoricalLogits

  /** A law constructed with its keyword arguments in the order the code passes them. */
  datatype Law = Law(id: LawId, args: seq<Tensor>)

  /** Laws whose last parameter axis lists the classes. */
  predicate IsClassLaw(id: LawId)
  {
    id == OneHotProbs || id == OneHotLogits || id == CategoricalLogits
  }

  /** The numerics of the laws: element `i` of `log_prob(value)`, and element `i` of a
      draw. */
  datatype Oracle = Oracle(logProb: (Law, Tensor, nat) -> real, draw: (Law, nat) -> real)

  /** The batch shape of a law: the shape of its first argument for the elementwise laws,
      and that shape without its class axis for the class laws, which need one (torch
      raises a ValueError for a 0-d probability or logit tensor). */
  function LawBatch(law: Law): (r: Result<Shape>)
    requires |law.args| > 0
    ensures !IsClassLaw(law.id) ==> r == Ok(law.args[0].shape)
    ensures IsClassLaw(law.id) ==> (r.Ok? <==> |law.args[0].shape| > 0)
    ensures IsClassLaw(law.id) && r.Ok? ==>
      |r.value| + 1 == |law.args[0].shape| && r.value == law.args[0].shape[..|r.value|]
    ensures r.Err? ==> r.error == ValueError
  {
    var s := law.args[0].shape;
    if !IsClassLaw(law.id) then Ok(s)
    else if |s| == 0 then Err(ValueError)
    else Ok(s[..|s| - 1])
  }

  /** `law.log_prob(value)`: one number per batch element. */
  function LogProb(o: Oracle, law: Law, value: Tensor): (r: Result<Tensor>)
    requires |law.args| > 0
    ensures r.Ok? <==> LawBatch(law).Ok?
    ensures r.Err? ==> r.error == ValueError
    ensures r.Ok? ==> r.value.Valid() && r.value.shape == LawBatch(law).value
    ensures r.Ok? ==> forall i :: 0 <= i < |r.value.data| ==> r.value.data[i] == o.logProb(law, value, i)
  {
    var batch :- LawBatch(law);
    Ok(Tensor(batch, seq(Prod(batch), i requires 0 <= i < Prod(batch) => o.logProb(law, value, i))))
  }

  /** `law.rsample()` or `law.sample()`: a draw of the batch shape followed by the event
      shape, which for every law here is the shape of its first argument. */
  function Sample(o: Oracle, law: Law): (r: Result<Tensor>)
    requires |law.args| > 0
    ensures r.Ok? <==> LawBatch(law).Ok?
    ensures r.Err? ==> r.error == ValueError
    ensures r.Ok? ==> r.value.Valid() && r.value.shape == law.args[0].shape
    ensures r.Ok? ==> forall i :: 0 <= i < |r.value.data| ==> r.value.data[i] == o.draw(law, i)
  {
    var _ :- LawBatch(law);
    var s := law.args[0].shape;
    Ok(Tensor(s, seq(Prod(s), i requires 0 <= i < Prod(s) => o.draw(law, i))))
  }

  /** The values of the parameters, in order. */
  function ParamTensors(ps: TensorParams): (r: seq<Tensor>)
    ensures |r| == |ps| && forall j :: 0 <= j < |ps| ==> r[j] == ps[j].1
  {
    seq(|ps|, j requires 0 <= j < |ps| => ps[j].1)
  }

  /** Every argument of the law is one of the parameter values. */
  predicate FromParams(args: seq<Tensor>, ps: TensorParams)
  {
    forall i :: 0 <= i < |args| ==> args[i] in ParamTensors(ps)
  }

  /** `Law(loc=parameters["loc"], scale=parameters["scale"])`. */
  function LocScale(id: LawId, ps: TensorParams): (r: Result<Law>)
    ensures r.Ok? <==> "loc" in Keys(ps) && "scale" in Keys(ps)
    ensures r.Err? ==> r.error == KeyError
    ensures r.Ok? ==> r.value == Law(id, [Lookup(ps, "loc").value, Lookup(ps, "scale").value])
  {
    var loc :- Get(ps, "loc");
    var scale :- Get(ps, "scale");
    Ok(Law(id, [loc, scale]))
  }

  /** `BinomialDistribution`: `p` whenever it is given, `logit_p` otherwise, a ValueError
      with neither; `total_count` is `n`. */
  function BinomialLaw(ps: TensorParams): (r: Result<Law>)
    ensures "p" in Keys(ps) ==> (r.Ok? <==> "n" in Keys(ps))
    ensures "p" in Keys(ps) && r.Ok? ==>
      r.value == Law(BinomialProbs, [Lookup(ps, "n").value, Lookup(ps, "p").value])
    ensures "p" !in Keys(ps) && "logit_p" in Keys(ps) ==> (r.Ok? <==> "n" in Keys(ps))
    ensures "p" !in Keys(ps) && "logit_p" in Keys(ps) && r.Ok? ==>
      r.value == Law(BinomialLogits, [Lookup(ps, "n").value, Lookup(ps, "logit_p").value])
    ensures "p" !in Keys(ps) && "logit_p" !in Keys(ps) ==> r == Err(ValueError)
    ensures r.Err? ==> r.error in {KeyError, ValueError}
  {
    if "p" in Keys(ps) then
      var n :- Get(ps, "n");
      Ok(Law(BinomialProbs, [n, Lookup(ps, "p").value]))
    else if "logit_p" in Keys(ps) then
      var n :- Get(ps, "n");
      Ok(Law(BinomialLogits, [n, Lookup(ps, "logit_p").value]))
    else
      Err(ValueError)
  }

  /** With `p` given, `logit_p` plays no part. */
  lemma BinomialPrefersProbs(ps: TensorParams)
    requires "p" in Keys(ps)
    ensures BinomialLaw(Remove(ps, "logit_p")) == BinomialLaw(ps)
  {
    var qs := Remove(ps, "logit_p");
    assert Lookup(qs, "p") == Lookup(ps, "p");
    assert Lookup(qs, "n") == Lookup(ps, "n");
  }

  /** The law of a univariate family, with its arguments read from the parameters. Beta
      passes `alpha` as `concentration0` and `beta` as `concentration1`. */
  function UnivariateLaw(f: Family, ps: TensorParams): (r: Result<Law>)
    requires StrategyOf(f).Univariate?
    ensures r.Ok? ==> |r.value.args| > 0 && !IsClassLaw(r.value.id) && FromParams(r.value.args, ps)
    ensures f == Normal ==> r == LocScale(NormalLaw, ps)
    ensures f == LogNormal ==> r == LocScale(LogNormalLaw, ps)
    ensures f == Cauchy ==> r == LocScale(CauchyLaw, ps)
    ensures f == Laplace ==> r == LocScale(LaplaceLaw, ps)
    ensures f == Beta ==> (r.Ok? <==> "alpha" in Keys(ps) && "beta" in Keys(ps))
    ensures f == Beta && r.Ok? ==> r.value == Law(BetaLaw, [Lookup(ps, "alpha").value, Lookup(ps, "beta").value])
    ensures f == Binomial ==> r == BinomialLaw(ps)
    ensures r.Err? ==> r.error in {KeyError, ValueError}
  {
    match f
    case Normal => LocScale(NormalLaw, ps)
    case LogNormal => LocScale(LogNormalLaw, ps)
    case Cauchy => LocScale(CauchyLaw, ps)
    case Laplace => LocScale(LaplaceLaw, ps)
    case Beta =>
      var alpha :- Get(ps, "alpha");
      var beta :- Get(ps, "beta");
      Ok(Law(BetaLaw, [alpha, beta]))
    case Binomial => BinomialLaw(ps)
  }

  /** Once `check_parameters` has passed on parameters with these names, the law's
      arguments can all be read. */
  lemma UnivariateLawChecked(f: Family, params: Params, ps: TensorParams)
    requires StrategyOf(f).Univariate? && Keys(ps) == Keys(params)
    requires CheckParameters(RequiredParameters(f), params).Pass?
    ensures UnivariateLaw(f, ps).Ok?
  {
    var req := RequiredParameters(f);
    assert Satisfied(req[0], Keys(params)) && Satisfied(req[1], Keys(params));
  }

  /** `t[i]` along `axis`, an IndexError when the axis or the entry does not exist. */
  function Index(t: Tensor, axis: nat, i: nat): (r: Result<Tensor>)
    requires t.Valid()
    ensures r.Ok? <==> axis < |t.shape| && i < t.shape[axis]
    ensures r.Err? ==> r.error == IndexError
    ensures r.Ok? ==> r.value.Valid() && r.value.shape == t.shape[..axis] + t.shape[axis + 1..]
  {
    if axis < |t.shape| && i < t.shape[axis] then Ok(Select(t, axis, i)) else Err(IndexError)
  }

  /** `t[:, :, 0]`. */
  function ClassZero(t: Tensor): (r: Result<Tensor>)
    requires t.Valid()
    ensures r.Ok? <==> |t.shape| >= 3 && t.shape[2] > 0
    ensures r.Err? ==> r.error == IndexError
    ensures r.Ok? ==> r.value.Valid() && r.value.shape == t.shape[..2] + t.shape[3..]
  {
    Index(t, 2, 0)
  }

  /** `t[:, 0, 0]`. */
  function FirstEntries(t: Tensor): (r: Result<Tensor>)
    requires t.Valid()
    ensures r.Ok? <==> |t.shape| >= 3 && t.shape[1] > 0 && t.shape[2] > 0
    ensures r.Err? ==> r.error == IndexError
    ensures r.Ok? ==> r.value.Valid() && r.value.shape == t.shape[..1] + t.shape[3..]
  {
    var u :- Index(t, 1, 0);
    assert |t.shape| >= 2 ==> u.shape[1..] == t.shape[2..];
    var v :- Index(u, 1, 0);
    assert v.shape == t.shape[..1] + t.shape[3..];
    Ok(v)
  }

  /** Whether an observation is given one-hot: it has the shape of `softmax_p` and holds
      exactly the values 0 and 1. */
  predicate OneHot(x: Tensor, sp: Tensor)
  {
    x.shape == sp.shape && Values(x) == {0.0, 1.0}
  }

  /** `CategoricalDistribution._calculate_log_probability`: the law and the value whose
      log-probability it gives. `p` wins over `softmax_p`; with `softmax_p`, a one-hot
      observation is scored against the logits `softmax_p[:, :, 0]` as `x[:, :, 0]`, any
      other as the class indices `x[:, 0, 0]`. */
  function CategoricalLogProbLaw(x: Tensor, ps: TensorParams): (r: Result<(Law, Tensor)>)
    requires x.Valid() && AllTensorsValid(ps)
    ensures "p" in Keys(ps) ==> r == Ok((Law(OneHotProbs, [Lookup(ps, "p").value]), x))
    ensures "p" !in Keys(ps) && "softmax_p" !in Keys(ps) ==> r == Err(ValueError)
    ensures r.Err? ==> r.error in {ValueError, IndexError}
    ensures r.Ok? ==> |r.value.0.args| == 1 && IsClassLaw(r.value.0.id)
    ensures "p" !in Keys(ps) && r.Ok? ==>
      "softmax_p" in Keys(ps) &&
      ClassZero(Lookup(ps, "softmax_p").value) == Ok(r.value.0.args[0]) &&
      (r.value.0.id == OneHotLogits <==> OneHot(x, Lookup(ps, "softmax_p").value))
    ensures "p" !in Keys(ps) && r.Ok? && r.value.0.id == OneHotLogits ==> ClassZero(x) == Ok(r.value.1)
    ensures "p" !in Keys(ps) && r.Ok? && r.value.0.id == CategoricalLogits ==> FirstEntries(x) == Ok(r.value.1)
    ensures "p" !in Keys(ps) && "softmax_p" in Keys(ps) ==>
      (r.Ok? <==> (ClassZero(Lookup(ps, "softmax_p").value).Ok? &&
        (if OneHot(x, Lookup(ps, "softmax_p").value) then ClassZero(x).Ok? else FirstEntries(x).Ok?)))
  {
    if "p" in Keys(ps) then
      Ok((Law(OneHotProbs, [Lookup(ps, "p").value]), x))
    else if "softmax_p" in Keys(ps) then
      var sp := Lookup(ps, "softmax_p").value;
      assert sp.Valid();
      match ClassZero(sp)
      case Err(e) => Err(e)
      case Ok(logits) =>
        var (id, v) := if OneHot(x, sp) then (OneHotLogits, ClassZero(x)) else (CategoricalLogits, FirstEntries(x));
        if v.Err? then Err(v.error) else Ok((Law(id, [logits]), v.value))
    else
      Err(ValueError)
  }

  /** An observation of zeros only is never read as one-hot. */
  lemma CategoricalZerosAreIndices(x: Tensor, ps: TensorParams)
    requires x.Valid() && AllTensorsValid(ps) && "p" !in Keys(ps)
    requires forall i :: 0 <= i < |x.data| ==> x.data[i] == 0.0
    requires CategoricalLogProbLaw(x, ps).Ok?
    ensures CategoricalLogProbLaw(x, ps).value.0.id == CategoricalLogits
  {
    assert 1.0 !in Values(x);
  }

  /** With `p` given, `softmax_p` plays no part in the log-probability. */
  lemma CategoricalPrefersProbs(x: Tensor, ps: TensorParams)
    requires x.Valid() && AllTensorsValid(ps) && "p" in Keys(ps)
    ensures AllTensorsValid(Remove(ps, "softmax_p"))
    ensures CategoricalLogProbLaw(x, Remove(ps, "softmax_p")) == CategoricalLogProbLaw(x, ps)
  {
    var qs := Remove(ps, "softmax_p");
    RemoveValid(ps, "softmax_p");
    assert Lookup(qs, "p") == Lookup(ps, "p");
  }

  /** Removing a parameter keeps the others valid. */
  lemma {:induction false} RemoveValid(ps: TensorParams, key: string)
    requires AllTensorsValid(ps)
    ensures AllTensorsValid(Remove(ps, key))
  {
    if |ps| > 0 {
      RemoveValid(ps[1..], key);
      var rest := Remove(ps[1..], key);
      if ps[0].0 != key {
        var r := [ps[0]] + rest;
        assert forall i :: 1 <= i < |r| ==> r[i] == rest[i - 1];
      }
    }
  }

  /** `CategoricalDistribution._get_sample`: one-hot draws from `p` when it is given, from
      the logits `softmax_p` otherwise, a ValueError with neither. */
  function CategoricalSampleLaw(ps: TensorParams): (r: Result<Law>)
    ensures "p" in Keys(ps) ==> r == Ok(Law(OneHotProbs, [Lookup(ps, "p").value]))
    ensures "p" !in Keys(ps) && "softmax_p" in Keys(ps) ==> r == Ok(Law(OneHotLogits, [Lookup(ps, "softmax_p").value]))
    ensures "p" !in Keys(ps) && "softmax_p" !in Keys(ps) ==> r == Err(ValueError)
    ensures r.Ok? ==> |r.value.args| == 1 && IsClassLaw(r.value.id) && FromParams(r.value.args, ps)
  {
    if "p" in Keys(ps) then Ok(Law(OneHotProbs, [Lookup(ps, "p").value]))
    else if "softmax_p" in Keys(ps) then Ok(Law(OneHotLogits, [Lookup(ps, "softmax_p").value]))
    else Err(ValueError)
  }
}
