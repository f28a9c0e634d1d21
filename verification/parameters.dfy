/** The distribution families of `brancher/distributions.py`, the parameters each requires,
    and `Distribution.check_parameters`. */
module Parameters {
  import opened Wrappers
  import opened Data

  /** An entry of `required_parameters`: a name that must be given, or a tuple of names of
      which at least one must be given. */
  datatype Requirement = Name(name: string) | AnyOf(names: seq<string>)

  /** Whether the given keyword names meet one requirement. */
  predicate Satisfied(req: Requirement, keys: set<string>)
  {
    match req
    case Name(n) => n in keys
    case AnyOf(ns) => exists i :: 0 <= i < |ns| && ns[i] in keys
  }

  /** `check_parameters`: an AssertionError unless every requirement is met. */
  function CheckParameters(required: seq<Requirement>, params: Params): (o: Outcome)
    ensures o.Pass? <==> forall i :: 0 <= i < |required| ==> Satisfied(required[i], Keys(params))
    ensures o.Fail? ==> o.error == AssertionError
  {
    if |required| == 0 then Pass
    else if !Satisfied(required[0], Keys(params)) then Fail(AssertionError)
    else
      var rest := CheckParameters(required[1..], params);
      assert forall i :: 1 <= i < |required| ==> required[i] == required[1..][i - 1];
      rest
  }

  /** Only the names of the parameters matter, and more names never make the check fail. */
  lemma {:induction false} CheckParametersIgnoresExtra(required: seq<Requirement>, p: Params, q: Params)
    requires Keys(p) <= Keys(q)
    ensures CheckParameters(required, p).Pass? ==> CheckParameters(required, q).Pass?
  {
    if |required| > 0 {
      CheckParametersIgnoresExtra(required[1..], p, q);
      if Satisfied(required[0], Keys(p)) {
        match required[0]
        case Name(n) =>
        case AnyOf(ns) =>
          var i :| 0 <= i < |ns| && ns[i] in Keys(p);
          assert ns[i] in Keys(q);
      }
    }
  }

  /** The distribution families: the four location-scale laws, Beta, Binomial, Categorical,
      and the empirical distribution with its batch size and whether its data are observed. */
  datatype Family =
    | Normal
    | LogNormal
    | Cauchy
    | Laplace
    | Beta
    | Binomial
    | Categorical
    | EmpiricalData(batchSize: nat, observed: bool)

  /** `required_parameters` of each family's constructor. */
  function RequiredParameters(f: Family): seq<Requirement>
  {
    match f
    case Normal => [Name("loc"), Name("scale")]
    case LogNormal => [Name("loc"), Name("scale")]
    case Cauchy => [Name("loc"), Name("scale")]
    case Laplace => [Name("loc"), Name("scale")]
    case Beta => [Name("alpha"), Name("beta")]
    case Binomial => [Name("n"), AnyOf(["p", "logit_p"])]
    case Categorical => [AnyOf(["p", "softmax_p"])]
    case EmpiricalData(_, _) => [Name("dataset")]
  }

  /** How a family prepares its parameters: broadcasting them together
      (`UnivariateDistribution`), passing them through (`ImplicitDistribution`), or folding
      samples and datapoints into one batch axis (`VectorDistribution`). */
  datatype Strategy = Univariate | Implicit | Vector

  function StrategyOf(f: Family): (s: Strategy)
    ensures s.Implicit? <==> f.EmpiricalData?
    ensures s.Vector? <==> f == Categorical
  {
    match f
    case Categorical => Vector
    case EmpiricalData(_, _) => Implicit
    case _ => Univariate
  }

  /** `parameters[key]`: the value given under `key`, or a KeyError. */
  function Get<V(==)>(p: seq<(string, V)>, key: string): (r: Result<V>)
    ensures r.Ok? <==> key in Keys(p)
    ensures r.Err? ==> r.error == KeyError
    ensures r.Ok? ==> Lookup(p, key) == Some(r.value)
  {
    match Lookup(p, key)
    case Some(v) => Ok(v)
    case None => Err(KeyError)
  }

  /** Two parameter lists with the same names in the same order have the same name set. */
  lemma SameKeys<V, W>(p: seq<(string, V)>, q: seq<(string, W)>)
    requires KeyList(p) == KeyList(q)
    ensures Keys(p) == Keys(q)
  {
    assert forall k :: k in Keys(p) ==> k in Keys(q) by {
      forall k | k in Keys(p)
        ensures k in Keys(q)
      {
        var i :| 0 <= i < |p| && p[i].0 == k;
        assert KeyList(q)[i] == k;
      }
    }
    assert forall k :: k in Keys(q) ==> k in Keys(p) by {
      forall k | k in Keys(q)
        ensures k in Keys(p)
      {
        var i :| 0 <= i < |q| && q[i].0 == k;
        assert KeyList(p)[i] == k;
      }
    }
  }

  /** Once the check passes, every name a family requires outright can be read. */
  lemma CheckedNames(f: Family, params: Params, n: string)
    requires CheckParameters(RequiredParameters(f), params).Pass?
    requires Name(n) in RequiredParameters(f)
    ensures n in Keys(params)
  {
    var req := RequiredParameters(f);
    var i :| 0 <= i < |req| && req[i] == Name(n);
    assert Satisfied(req[i], Keys(params));
  }
}
