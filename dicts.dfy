/** Python dicts keyed by strings, with their insertion order, and the mutable
    dict object that several holders may share. */
module Dicts {
  import opened Values

  /** The keyword arguments of a call as one mapping; a later pair for the same key wins. */
  function AsMap(kwargs: seq<(string, Value)>): map<string, Value> {
    if kwargs == [] then map[] else map[kwargs[0].0 := kwargs[0].1] + AsMap(kwargs[1..])
  }

  /** The mapping has exactly the keys the call names, and the last pair of the call is in it. */
  lemma {:induction false} AsMapKeys(kwargs: seq<(string, Value)>)
    ensures forall k :: k in AsMap(kwargs) <==> exists j :: 0 <= j < |kwargs| && kwargs[j].0 == k
    ensures |kwargs| > 0 ==> AsMap(kwargs)[kwargs[|kwargs| - 1].0] == kwargs[|kwargs| - 1].1
  {
    if kwargs != [] {
      var rest := kwargs[1..];
      AsMapKeys(rest);
      forall k | exists j :: 0 <= j < |kwargs| && kwargs[j].0 == k
        ensures k in AsMap(kwargs)
      {
        var j :| 0 <= j < |kwargs| && kwargs[j].0 == k;
        if j > 0 {
          assert rest[j - 1].0 == k;
        }
      }
      forall k | k in AsMap(kwargs)
        ensures exists j :: 0 <= j < |kwargs| && kwargs[j].0 == k
      {
        if k != kwargs[0].0 {
          assert AsMap(kwargs) == map[kwargs[0].0 := kwargs[0].1] + AsMap(rest);
          assert k in AsMap(rest);
          var j :| 0 <= j < |rest| && rest[j].0 == k;
          assert kwargs[j + 1].0 == k;
        }
      }
      if rest != [] {
        assert kwargs[|kwargs| - 1] == rest[|rest| - 1];
      }
    }
  }

  /** Each named key gets the value of its last pair in the call. */
  lemma {:induction false} AsMapLastWins(kwargs: seq<(string, Value)>, j: int)
    requires 0 <= j < |kwargs|
    requires forall i :: j < i < |kwargs| ==> kwargs[i].0 != kwargs[j].0
    ensures kwargs[j].0 in AsMap(kwargs) && AsMap(kwargs)[kwargs[j].0] == kwargs[j].1
  {
    var rest := kwargs[1..];
    AsMapKeys(rest);
    if j == 0 {
      assert kwargs[0].0 !in AsMap(rest) by {
        forall i | 0 <= i < |rest|
          ensures rest[i].0 != kwargs[0].0
        {
          assert rest[i] == kwargs[i + 1];
        }
      }
    } else {
      forall i | j - 1 < i < |rest|
        ensures rest[i].0 != rest[j - 1].0
      {
        assert rest[i] == kwargs[i + 1];
      }
      AsMapLastWins(rest, j - 1);
      assert rest[j - 1] == kwargs[j];
    }
  }

  /** A dict value: its keys in insertion order and the entry of each key. */
  datatype Dict = Dict(keys: seq<string>, entries: map<string, Value>) {

    /** Every key is listed once, and the listed keys are exactly those with an entry. */
    ghost predicate Valid() {
      && (forall i, j :: 0 <= i < j < |keys| ==> keys[i] != keys[j])
      && (forall k :: k in entries <==> k in keys)
    }

    /** `d.get(k)`: the entry of `k`, or None when `k` is absent. */
    function Get(k: string): Value {
      if k in entries then entries[k] else Null
    }

    /** `d[k] = v`: an existing key is overwritten where it stands, a new key goes last. */
    function Set(k: string, v: Value): Dict {
      Dict(if k in entries then keys else keys + [k], entries[k := v])
    }

    /** `d.update(**kwargs)`: the pairs are assigned one after another, left to right. */
    function Update(kwargs: seq<(string, Value)>): Dict
      decreases |kwargs|
    {
      if kwargs == [] then this else Set(kwargs[0].0, kwargs[0].1).Update(kwargs[1..])
    }
  }

  /** Assigning a key keeps the dict well formed, gives the key its new value and leaves every
      other key alone; a new key is appended after the existing ones. */
  lemma SetProperties(d: Dict, k: string, v: Value)
    ensures d.Valid() ==> d.Set(k, v).Valid()
    ensures k in d.Set(k, v).entries && d.Set(k, v).Get(k) == v
    ensures forall k' :: k' != k ==> d.Set(k, v).Get(k') == d.Get(k')
    ensures d.Set(k, v).entries.Keys == d.entries.Keys + {k}
    ensures d.keys <= d.Set(k, v).keys
    ensures |d.Set(k, v).keys| == |d.keys| + (if k in d.entries then 0 else 1)
  {
  }

  /** The entries after an update are the old ones overridden by the call's mapping. */
  lemma {:induction false} UpdateMerges(d: Dict, kwargs: seq<(string, Value)>)
    ensures d.Update(kwargs).entries == d.entries + AsMap(kwargs)
    decreases |kwargs|
  {
    if kwargs == [] {
      assert d.entries + map[] == d.entries;
    } else {
      var first := d.Set(kwargs[0].0, kwargs[0].1);
      UpdateMerges(first, kwargs[1..]);
      UnionAfterSet(d.entries, kwargs[0].0, kwargs[0].1, AsMap(kwargs[1..]));
    }
  }

  /** Setting one key and then merging the rest is merging the key followed by the rest. */
  lemma UnionAfterSet<V>(m: map<string, V>, k: string, v: V, rest: map<string, V>)
    ensures m + (map[k := v] + rest) == m[k := v] + rest
  {
  }

  /** An update keeps every key listed once, and keeps the existing keys in their order. */
  lemma {:induction false} UpdateKeepsValid(d: Dict, kwargs: seq<(string, Value)>)
    requires d.Valid()
    ensures d.Update(kwargs).Valid()
    ensures d.keys <= d.Update(kwargs).keys
    decreases |kwargs|
  {
    if kwargs != [] {
      var first := d.Set(kwargs[0].0, kwargs[0].1);
      SetProperties(d, kwargs[0].0, kwargs[0].1);
      UpdateKeepsValid(first, kwargs[1..]);
      assert d.Update(kwargs) == first.Update(kwargs[1..]);
      assert d.keys <= first.keys;
    }
  }

  /** Recording the same key twice keeps only the second value, and the key once. */
  lemma SetOverwrites(d: Dict, k: string, v1: Value, v2: Value)
    requires d.Valid()
    ensures d.Set(k, v1).Set(k, v2) == d.Set(k, v2)
    ensures |d.Set(k, v1).Set(k, v2).keys| == |d.Set(k, v1).keys|
  {
  }

  /** An update leaves every key it does not name as it was. */
  lemma UpdateLeavesOtherKeys(d: Dict, kwargs: seq<(string, Value)>, k: string)
    requires forall j :: 0 <= j < |kwargs| ==> kwargs[j].0 != k
    ensures d.Update(kwargs).Get(k) == d.Get(k)
  {
    UpdateMerges(d, kwargs);
    AsMapKeys(kwargs);
  }

  /** A mutable dict object: holders of the same reference see each other's writes. */
  class Dictionary {
    var contents: Dict

    constructor (initial: Dict)
      ensures contents == initial
    {
      contents := initial;
    }

    /** `self.update(**kwargs)`. */
    method Update(kwargs: seq<(string, Value)>)
      modifies this
      ensures contents == old(contents).Update(kwargs)
    {
      contents := contents.Update(kwargs);
    }

    /** `self[key] = value`. */
    method Put(key: string, value: Value)
      modifies this
      ensures contents == old(contents).Set(key, value)
    {
      contents := contents.Set(key, value);
    }
  }
}
