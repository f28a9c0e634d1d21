/** The pure dictionary and list helpers of `brancher/utilities.py`.

    Python dictionaries become Dafny maps here: none of these helpers' callers depend on
    the iteration order of the result (`zip_dict` even builds it from a set). */
module Collections {

  /** A Python value as `to_tuple` sees it: iterable (its items) or not (one object). */
  datatype Value<T> = Single(item: T) | Iterable(items: seq<T>)

  /** `to_tuple`: the items of an iterable, or the one-element tuple of anything else. */
  function ToTuple<T>(v: Value<T>): (r: seq<T>)
    ensures v.Single? ==> r == [v.item]
    ensures v.Iterable? ==> r == v.items
  {
    match v
    case Single(x) => [x]
    case Iterable(xs) => xs
  }

  /** `flatten_list`: the sublists' items, sublist after sublist. */
  function Flatten<T>(xss: seq<seq<T>>): (r: seq<T>)
    ensures |r| == TotalLength(xss)
  {
    if |xss| == 0 then [] else xss[0] + Flatten(xss[1..])
  }

  function TotalLength<T>(xss: seq<seq<T>>): nat
  {
    if |xss| == 0 then 0 else |xss[0]| + TotalLength(xss[1..])
  }

  /** When every sublist has `m` items, item `k` of sublist `n` sits at `n * m + k` of the
      flattened list. */
  lemma {:induction false} FlattenAt<T>(xss: seq<seq<T>>, m: nat, n: nat, k: nat)
    requires forall i :: 0 <= i < |xss| ==> |xss[i]| == m
    requires n < |xss| && k < m
    ensures n * m + k < |Flatten(xss)| && Flatten(xss)[n * m + k] == xss[n][k]
  {
    if n == 0 {
      FlattenLength(xss[1..], m);
    } else {
      FlattenAt(xss[1..], m, n - 1, k);
      assert xss[1..][n - 1] == xss[n];
      assert n * m + k == m + ((n - 1) * m + k);
    }
  }

  /** Sublists of `m` items each flatten to `|xss| * m` items. */
  lemma {:induction false} FlattenLength<T>(xss: seq<seq<T>>, m: nat)
    requires forall i :: 0 <= i < |xss| ==> |xss[i]| == m
    ensures |Flatten(xss)| == |xss| * m
  {
    if |xss| > 0 {
      FlattenLength(xss[1..], m);
      assert |xss| * m == m + (|xss| - 1) * m;
    }
  }

  /** Flattening distributes over concatenation of the outer list. */
  lemma {:induction false} FlattenConcat<T>(a: seq<seq<T>>, b: seq<seq<T>>)
    ensures Flatten(a + b) == Flatten(a) + Flatten(b)
  {
    if |a| == 0 {
      assert a + b == b;
    } else {
      assert (a + b)[1..] == a[1..] + b;
      FlattenConcat(a[1..], b);
    }
  }

  /** Every item of a flattened list comes from one of the sublists, and every item of
      every sublist is in the flattened list. */
  lemma {:induction false} FlattenMembers<T>(xss: seq<seq<T>>, x: T)
    ensures x in Flatten(xss) <==> exists i :: 0 <= i < |xss| && x in xss[i]
  {
    if |xss| > 0 {
      FlattenMembers(xss[1..], x);
      if x in Flatten(xss[1..]) {
        var i :| 0 <= i < |xss[1..]| && x in xss[1..][i];
        assert x in xss[i + 1];
      }
      if exists i :: 0 <= i < |xss| && x in xss[i] {
        var i :| 0 <= i < |xss| && x in xss[i];
        if i > 0 {
          assert x in xss[1..][i - 1];
        }
      }
    }
  }

  /** `zip_dict`: for the keys both dictionaries share, the tuple of the first one's
      entry followed by the second one's. */
  function ZipDict<K, T>(first: map<K, Value<T>>, second: map<K, Value<T>>): (r: map<K, Value<T>>)
    ensures r.Keys == first.Keys * second.Keys
    ensures forall k :: k in r ==> r[k].Iterable?
    ensures forall k :: k in r ==> ToTuple(r[k]) == ToTuple(first[k]) + ToTuple(second[k])
  {
    map k | k in first.Keys * second.Keys :: Iterable(ToTuple(first[k]) + ToTuple(second[k]))
  }

  /** `zip_dict_list`: repeatedly zips the last two dictionaries of the list and puts the
      result back at the end. */
  function ZipDictList<K, T>(dicts: seq<map<K, Value<T>>>): map<K, Value<T>>
    decreases |dicts|
  {
    if |dicts| == 0 then map[]
    else if |dicts| == 1 then dicts[0]
    else
      var n := |dicts|;
      ZipDictList(dicts[..n - 2] + [ZipDict(dicts[n - 1], dicts[n - 2])])
  }

  /** The keys that every dictionary of the list has. */
  function CommonKeys<K, T>(dicts: seq<map<K, Value<T>>>): set<K>
    requires |dicts| > 0
  {
    if |dicts| == 1 then dicts[0].Keys
    else CommonKeys(dicts[..|dicts| - 1]) * dicts[|dicts| - 1].Keys
  }

  /** The entries of key `k`, as tuples, from the LAST dictionary back to the first
      (a dictionary without `k` contributes nothing). */
  function ReversedEntries<K, T>(dicts: seq<map<K, Value<T>>>, k: K): seq<T>
  {
    if |dicts| == 0 then []
    else
      var last := dicts[|dicts| - 1];
      (if k in last then ToTuple(last[k]) else []) + ReversedEntries(dicts[..|dicts| - 1], k)
  }

  /** Zipping a list of at least two dictionaries keeps exactly the keys they all share. */
  lemma {:induction false} ZipDictListKeys<K, T>(dicts: seq<map<K, Value<T>>>)
    requires |dicts| >= 2
    ensures ZipDictList(dicts).Keys == CommonKeys(dicts)
    decreases |dicts|
  {
    var n := |dicts|;
    var z := ZipDict(dicts[n - 1], dicts[n - 2]);
    var rest := dicts[..n - 2] + [z];
    if n == 2 {
      assert rest == [z];
      assert dicts[..1] == [dicts[0]];
    } else {
      ZipDictListKeys(rest);
      CommonKeysShift(dicts, z);
    }
  }

  /** Each key's zipped tuple holds the entries in reverse list order: the last
      dictionary's entry first, the first dictionary's entry last. */
  lemma {:induction false} ZipDictListReverses<K, T>(dicts: seq<map<K, Value<T>>>)
    requires |dicts| >= 2
    ensures forall k :: k in ZipDictList(dicts) ==>
      ToTuple(ZipDictList(dicts)[k]) == ReversedEntries(dicts, k)
    decreases |dicts|
  {
    var n := |dicts|;
    var z := ZipDict(dicts[n - 1], dicts[n - 2]);
    var rest := dicts[..n - 2] + [z];
    assert ZipDictList(dicts) == ZipDictList(rest);
    assert rest[..|rest| - 1] == dicts[..n - 2] && rest[|rest| - 1] == z;
    if n == 2 {
      assert rest == [z];
      forall k | k in z
        ensures ToTuple(z[k]) == ReversedEntries(dicts, k)
      {
        ZipStep(dicts, rest, k);
      }
    } else {
      ZipDictListReverses(rest);
      forall k | k in ZipDictList(rest)
        ensures ToTuple(ZipDictList(rest)[k]) == ReversedEntries(dicts, k)
      {
        ZipDictListKeys(rest);
        CommonKeysMember(rest, k);
        ZipStep(dicts, rest, k);
      }
    }
  }

  /** Zipping the last two dictionaries keeps the reversed entries of a key they share. */
  lemma ZipStep<K, T>(dicts: seq<map<K, Value<T>>>, rest: seq<map<K, Value<T>>>, k: K)
    requires |dicts| >= 2 && |rest| == |dicts| - 1
    requires rest[..|rest| - 1] == dicts[..|dicts| - 2]
    requires k in dicts[|dicts| - 1] && k in dicts[|dicts| - 2] && k in rest[|rest| - 1]
    requires ToTuple(rest[|rest| - 1][k]) == ToTuple(dicts[|dicts| - 1][k]) + ToTuple(dicts[|dicts| - 2][k])
    ensures ReversedEntries(rest, k) == ReversedEntries(dicts, k)
  {
    var n := |dicts|;
    var a, b, c := ToTuple(dicts[n - 1][k]), ToTuple(dicts[n - 2][k]), ReversedEntries(dicts[..n - 2], k);
    calc {
      ReversedEntries(rest, k);
    == { ReversedEntriesUnfold(rest, k); }
      (a + b) + c;
    == { SeqAssoc(a, b, c); }
      a + (b + c);
    == { ReversedEntriesLastTwo(dicts, k); }
      ReversedEntries(dicts, k);
    }
  }

  lemma SeqAssoc<T>(a: seq<T>, b: seq<T>, c: seq<T>)
    ensures (a + b) + c == a + (b + c)
  {
  }

  lemma ReversedEntriesLastTwo<K, T>(dicts: seq<map<K, Value<T>>>, k: K)
    requires |dicts| >= 2 && k in dicts[|dicts| - 1] && k in dicts[|dicts| - 2]
    ensures ReversedEntries(dicts, k) ==
      ToTuple(dicts[|dicts| - 1][k]) + (ToTuple(dicts[|dicts| - 2][k]) + ReversedEntries(dicts[..|dicts| - 2], k))
  {
    var n := |dicts|;
    var init := dicts[..n - 1];
    assert init[..n - 2] == dicts[..n - 2] && init[n - 2] == dicts[n - 2];
    ReversedEntriesUnfold(init, k);
    ReversedEntriesUnfold(dicts, k);
  }

  /** The entries of a key the last dictionary has start with that dictionary's entry. */
  lemma ReversedEntriesUnfold<K, T>(dicts: seq<map<K, Value<T>>>, k: K)
    requires |dicts| > 0 && k in dicts[|dicts| - 1]
    ensures ReversedEntries(dicts, k) == ToTuple(dicts[|dicts| - 1][k]) + ReversedEntries(dicts[..|dicts| - 1], k)
  {
  }

  /** Replacing the last two dictionaries by their zip leaves the common keys unchanged. */
  lemma CommonKeysShift<K, T>(dicts: seq<map<K, Value<T>>>, z: map<K, Value<T>>)
    requires |dicts| >= 3
    requires z.Keys == dicts[|dicts| - 1].Keys * dicts[|dicts| - 2].Keys
    ensures CommonKeys(dicts[..|dicts| - 2] + [z]) == CommonKeys(dicts)
  {
    var n := |dicts|;
    var rest := dicts[..n - 2] + [z];
    assert rest[..n - 2] == dicts[..n - 2];
    assert dicts[..n - 1][..n - 2] == dicts[..n - 2];
  }

  /** A common key is a key of every dictionary. */
  lemma {:induction false} CommonKeysMember<K, T>(dicts: seq<map<K, Value<T>>>, k: K)
    requires |dicts| > 0
    ensures k in CommonKeys(dicts) <==> forall i :: 0 <= i < |dicts| ==> k in dicts[i]
  {
    if |dicts| > 1 {
      var init := dicts[..|dicts| - 1];
      CommonKeysMember(init, k);
      assert forall i :: 0 <= i < |init| ==> init[i] == dicts[i];
    }
  }

  /** `split_dict`: the entries satisfying `condition`, and the others. */
  function SplitDict<K, V>(dict: map<K, V>, condition: (K, V) -> bool): (r: (map<K, V>, map<K, V>))
    ensures r.0.Keys !! r.1.Keys
    ensures r.0.Keys + r.1.Keys == dict.Keys
    ensures forall k :: k in r.0 ==> r.0[k] == dict[k] && condition(k, dict[k])
    ensures forall k :: k in r.1 ==> r.1[k] == dict[k] && !condition(k, dict[k])
  {
    (map k | k in dict && condition(k, dict[k]) :: dict[k],
     map k | k in dict && !condition(k, dict[k]) :: dict[k])
  }

  /** `{**d1, **d2}`: the union in which the second dictionary's entries win. */
  function Merge<K, V>(d1: map<K, V>, d2: map<K, V>): map<K, V>
  {
    d1 + d2
  }

  /** Every key of any of the dictionaries. */
  function UnionKeys<K, V>(dicts: seq<map<K, V>>): set<K>
  {
    if |dicts| == 0 then {} else UnionKeys(dicts[..|dicts| - 1]) + dicts[|dicts| - 1].Keys
  }

  /** `join_dicts_list`: merges the dictionaries from left to right; `{}` for none.
      The result has every key of every dictionary. */
  function JoinDictsList<K, V>(dicts: seq<map<K, V>>): (r: map<K, V>)
    ensures r.Keys == UnionKeys(dicts)
  {
    if |dicts| == 0 then map[]
    else Merge(JoinDictsList(dicts[..|dicts| - 1]), dicts[|dicts| - 1])
  }

  /** A key of any dictionary is in the union of their keys. */
  lemma {:induction false} UnionKeysMember<K, V>(dicts: seq<map<K, V>>, k: K)
    ensures k in UnionKeys(dicts) <==> exists i :: 0 <= i < |dicts| && k in dicts[i]
  {
    if |dicts| > 0 {
      var n := |dicts|;
      UnionKeysMember(dicts[..n - 1], k);
      if k in UnionKeys(dicts[..n - 1]) {
        var i :| 0 <= i < n - 1 && k in dicts[..n - 1][i];
        assert k in dicts[i];
      }
      if exists i :: 0 <= i < n && k in dicts[i] {
        var i :| 0 <= i < n && k in dicts[i];
        if i < n - 1 {
          assert k in dicts[..n - 1][i];
        }
      }
    }
  }

  /** No dictionary after position `i` has key `k`. */
  predicate LastWith<K, V>(dicts: seq<map<K, V>>, k: K, i: nat)
  {
    forall j :: i < j < |dicts| ==> k !in dicts[j]
  }

  /** In the joined dictionary a key's value comes from the LAST dictionary that has it. */
  lemma {:induction false} JoinDictsListLastWins<K, V>(dicts: seq<map<K, V>>, k: K, i: nat)
    requires i < |dicts| && k in dicts[i] && LastWith(dicts, k, i)
    ensures k in JoinDictsList(dicts)
    ensures JoinDictsList(dicts)[k] == dicts[i][k]
  {
    var n := |dicts|;
    UnionKeysMember(dicts, k);
    if i < n - 1 {
      var init := dicts[..n - 1];
      assert init[i] == dicts[i];
      assert LastWith(init, k, i) by {
        forall j | i < j < |init| ensures k !in init[j] {
          assert init[j] == dicts[j];
        }
      }
      JoinDictsListLastWins(init, k, i);
      assert k !in dicts[n - 1];
    }
  }

  /** Joining the two halves of a split gives back the original dictionary. */
  lemma SplitThenJoin<K, V>(dict: map<K, V>, condition: (K, V) -> bool)
    ensures JoinDictsList([SplitDict(dict, condition).0, SplitDict(dict, condition).1]) == dict
  {
    var parts := SplitDict(dict, condition);
    var a, b := parts.0, parts.1;
    var j := JoinDictsList([a, b]);
    assert [a, b][..1] == [a];
    assert [a][..0] == [];
    assert UnionKeys([a]) == a.Keys;
    assert UnionKeys([a, b]) == a.Keys + b.Keys;
    assert j.Keys == dict.Keys;
    forall k | k in j
      ensures j[k] == dict[k]
    {
      if k in b {
        JoinDictsListLastWins([a, b], k, 1);
      } else {
        JoinDictsListLastWins([a, b], k, 0);
      }
    }
  }
}
