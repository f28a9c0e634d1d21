/** The Python values the distribution layer receives, and keyword-parameter lists. */
module Data {
  import opened Wrappers
  import opened Tensors

  /** Python number types, told apart the way `coerce_to_dtype` tells them apart: by the
      exact type and, for numpy scalars, by the type's base class. */
  datatype NumberKind =
    | PyFloat
    | PyInt
    | PyBool
    | NumpyFloating
    | NumpySignedInteger(bits: nat)
    | NumpyUnsignedInteger

  /** The element type of a numpy array, as far as indexing and conversion tell them apart. */
  datatype DType = BoolDType | IntDType | FloatDType | ObjectDType

  /** The container types `is_discrete` recognises (besides `str`). */
  datatype CollectionKind = PyList | PySet | PyTuple | PyDict

  /** A Python value as the shape code sees it: a torch tensor, a numpy array, a number,
      a container (for a dict, `items` are its keys), a string, or anything else. */
  datatype PyData =
    | TorchTensor(t: Tensor)
    | NdArray(a: Tensor, dtype: DType)
    | Number(numberKind: NumberKind, x: real)
    | Collection(collectionKind: CollectionKind, items: seq<PyData>)
    | Text(s: string)
    | Other(typeName: string)
  {
    /** Arrays and tensors, also inside containers, hold as many elements as their shapes
        say. */
    predicate Valid() {
      match this
      case TorchTensor(t) => t.Valid()
      case NdArray(a, _) => a.Valid()
      case Collection(_, items) => forall i :: 0 <= i < |items| ==> items[i].Valid()
      case _ => true
    }
  }

  /** `is_discrete`: lists, sets, tuples, dicts and strings. */
  predicate IsDiscrete(v: PyData)
  {
    v.Collection? || v.Text?
  }

  /** Keyword arguments in call order: name and value. */
  type Params = seq<(string, PyData)>

  /** Parameters once every value has become a tensor. */
  type TensorParams = seq<(string, Tensor)>

  function Keys<V>(p: seq<(string, V)>): set<string>
  {
    set i | 0 <= i < |p| :: p[i].0
  }

  function KeyList<V>(p: seq<(string, V)>): (r: seq<string>)
    ensures |r| == |p| && forall i :: 0 <= i < |p| ==> r[i] == p[i].0
  {
    seq(|p|, i requires 0 <= i < |p| => p[i].0)
  }

  /** Keyword names are distinct, as in any Python dict. */
  predicate DistinctKeys<V>(p: seq<(string, V)>)
  {
    forall i, j :: 0 <= i < j < |p| ==> p[i].0 != p[j].0
  }

  predicate AllValid(p: Params)
  {
    forall i :: 0 <= i < |p| ==> p[i].1.Valid()
  }

  predicate AllTensorsValid(p: TensorParams)
  {
    forall i :: 0 <= i < |p| ==> p[i].1.Valid()
  }

  lemma KeysCons<V>(p: seq<(string, V)>)
    requires |p| > 0
    ensures Keys(p) == {p[0].0} + Keys(p[1..])
  {
    assert forall i :: 0 < i < |p| ==> p[i] == p[1..][i - 1];
    assert forall k :: k in Keys(p) && k != p[0].0 ==> k in Keys(p[1..]) by {
      forall k | k in Keys(p) && k != p[0].0
        ensures k in Keys(p[1..])
      {
        var i :| 0 <= i < |p| && p[i].0 == k;
        assert p[1..][i - 1].0 == k;
      }
    }
  }

  /** A list of pairs with distinct names, after a pair whose name it lacks, still has
      distinct names; the tail of a list with distinct names has distinct names. */
  lemma DistinctCons<V>(h: (string, V), rest: seq<(string, V)>)
    ensures DistinctKeys([h] + rest) <==> h.0 !in Keys(rest) && DistinctKeys(rest)
  {
    var r := [h] + rest;
    assert r[1..] == rest;
    assert forall j :: 0 < j < |r| ==> r[j] == rest[j - 1];
    if h.0 in Keys(rest) {
      var j :| 0 <= j < |rest| && rest[j].0 == h.0;
      assert r[0].0 == r[j + 1].0;
    }
  }

  /** `parameters[key]`, or `None` when the key is missing. */
  function Lookup<V(==)>(p: seq<(string, V)>, key: string): (r: Option<V>)
    ensures r.Some? <==> key in Keys(p)
    ensures r.Some? ==> exists i :: 0 <= i < |p| && p[i] == (key, r.value)
  {
    if |p| == 0 then None
    else if p[0].0 == key then Some(p[0].1)
    else
      var r := Lookup(p[1..], key);
      KeysCons(p);
      if r.Some? then
        var i :| 0 <= i < |p[1..]| && p[1..][i] == (key, r.value);
        assert p[i + 1] == (key, r.value);
        r
      else r
  }

  /** `dict.update({key: v})`: replaces the value in place when the key is present,
      appends the pair otherwise. */
  function Update<V(==)>(p: seq<(string, V)>, key: string, v: V): (r: seq<(string, V)>)
    ensures Keys(r) == Keys(p) + {key}
    ensures Lookup(r, key) == Some(v)
  {
    if |p| == 0 then
      KeysCons([(key, v)]);
      [(key, v)]
    else if p[0].0 == key then
      KeysCons(p);
      var r := [(key, v)] + p[1..];
      assert r[1..] == p[1..];
      KeysCons(r);
      r
    else
      var rest := Update(p[1..], key, v);
      var r := [p[0]] + rest;
      assert r[1..] == rest;
      KeysCons(p);
      KeysCons(r);
      r
  }

  /** The update leaves the value under every other name as it was. */
  lemma {:induction false} UpdateOthers<V>(p: seq<(string, V)>, key: string, v: V, k: string)
    requires k != key
    ensures Lookup(Update(p, key, v), k) == Lookup(p, k)
  {
    if |p| > 0 && p[0].0 != key {
      UpdateOthers(p[1..], key, v, k);
      assert Update(p, key, v)[1..] == Update(p[1..], key, v);
    } else if |p| > 0 {
      assert Update(p, key, v)[1..] == p[1..];
    }
  }

  /** The update of a dict keeps its names distinct. */
  lemma {:induction false} UpdateDistinct<V>(p: seq<(string, V)>, key: string, v: V)
    requires DistinctKeys(p)
    ensures DistinctKeys(Update(p, key, v))
  {
    if |p| > 0 {
      assert p == [p[0]] + p[1..];
      DistinctCons(p[0], p[1..]);
      var r := Update(p, key, v);
      if p[0].0 == key {
        assert r == [(key, v)] + p[1..];
        DistinctCons((key, v), p[1..]);
      } else {
        UpdateDistinct(p[1..], key, v);
        assert r == [p[0]] + Update(p[1..], key, v);
        DistinctCons(p[0], Update(p[1..], key, v));
      }
    }
  }

  /** `dict.pop(key)`: the remaining pairs, in order. */
  function Remove<V(==)>(p: seq<(string, V)>, key: string): (r: seq<(string, V)>)
    ensures Keys(r) == Keys(p) - {key}
    ensures forall k :: k != key ==> Lookup(r, k) == Lookup(p, k)
    ensures DistinctKeys(p) ==> DistinctKeys(r)
  {
    if |p| == 0 then []
    else
      var rest := Remove(p[1..], key);
      KeysCons(p);
      if p[0].0 == key then rest
      else
        var r := [p[0]] + rest;
        assert r[1..] == rest;
        KeysCons(r);
        assert p == [p[0]] + p[1..];
        DistinctCons(p[0], p[1..]);
        DistinctCons(p[0], rest);
        r
  }

  /** The values of the parameters as tensors, or the AssertionError of the
      `assert all([is_tensor(ar) for ar in args])` guards when one is not a torch tensor. */
  function AsTensors(vs: seq<PyData>): (r: Result<seq<Tensor>>)
    ensures r.Ok? <==> forall i :: 0 <= i < |vs| ==> vs[i].TorchTensor?
    ensures r.Err? ==> r.error == AssertionError
    ensures r.Ok? ==> |r.value| == |vs| && forall i :: 0 <= i < |vs| ==> r.value[i] == vs[i].t
  {
    if forall i :: 0 <= i < |vs| ==> vs[i].TorchTensor? then
      Ok(seq(|vs|, i requires 0 <= i < |vs| => vs[i].t))
    else
      Err(AssertionError)
  }

  function ParamValues(p: Params): (r: seq<PyData>)
    ensures |r| == |p| && forall i :: 0 <= i < |p| ==> r[i] == p[i].1
  {
    seq(|p|, i requires 0 <= i < |p| => p[i].1)
  }

  /** The names of `keys` paired with the tensors `vs`, in order. */
  function Zip(keys: seq<string>, vs: seq<Tensor>): (r: TensorParams)
    requires |keys| == |vs|
    ensures |r| == |keys|
    ensures forall i :: 0 <= i < |r| ==> r[i].0 == keys[i]
    ensures forall i :: 0 <= i < |r| ==> r[i].1 == vs[i]
    ensures KeyList(r) == keys
  {
    seq(|keys|, i requires 0 <= i < |keys| => (keys[i], vs[i]))
  }
}
