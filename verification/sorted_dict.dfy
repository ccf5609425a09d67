/** `SortedDict` as the ledger uses it: a map whose keys can be walked and bisected in order. */
module SortedDicts {
  import opened Grid

  datatype SortedDict<V> = SortedDict(keys: seq<int>, at: map<int, V>)
  {
    ghost predicate Valid() {
      Increasing(keys) && forall k :: k in keys <==> k in at
    }
  }

  /** `find_index_before`: the last key not after `key`, or -1. */
  function FindIndexBefore<V>(d: SortedDict<V>, key: int): (r: int)
    requires d.Valid()
    ensures -1 <= r < |d.keys|
    ensures forall k :: 0 <= k <= r ==> d.keys[k] <= key
    ensures forall k :: r < k < |d.keys| ==> d.keys[k] > key
  {
    if |d.keys| == 0 then -1
    else
      var i := SearchSorted(d.keys, key);
      if i == |d.keys| then |d.keys| - 1
      else if d.keys[i] != key then i - 1
      else i
  }

  lemma KeysListed<V>(d: SortedDict<V>)
    requires d.Valid()
    ensures forall k :: 0 <= k < |d.keys| ==> d.keys[k] in d.at
  {
    forall k | 0 <= k < |d.keys| ensures d.keys[k] in d.at {
      assert d.keys[k] in d.keys;
    }
  }

  /** The entry in force at `key`: no entry lies between it and `key`. */
  lemma InForce<V>(d: SortedDict<V>, key: int)
    requires d.Valid()
    ensures var i := FindIndexBefore(d, key);
            if i == -1 then forall k :: k in d.at ==> k > key
            else d.keys[i] in d.at && d.keys[i] <= key && forall k :: k in d.at && k <= key ==> k <= d.keys[i]
  {
    var i := FindIndexBefore(d, key);
    if i >= 0 {
      assert d.keys[i] in d.keys;
    }
    forall k | k in d.at && k <= key
      ensures i >= 0 && k <= d.keys[i]
    {
      var j :| 0 <= j < |d.keys| && d.keys[j] == k;
    }
  }

  function Put<V>(d: SortedDict<V>, key: int, v: V): (r: SortedDict<V>)
    requires d.Valid()
    ensures r.Valid() && r.at == d.at[key := v]
  {
    if key in d.at then SortedDict(d.keys, d.at[key := v])
    else
      var i := SearchSorted(d.keys, key);
      var r := SortedDict(d.keys[..i] + [key] + d.keys[i..], d.at[key := v]);
      PutKeepsOrder(d.keys, key);
      assert forall k :: k in d.keys[..i] + [key] + d.keys[i..] <==> k in d.keys || k == key by {
        assert d.keys == d.keys[..i] + d.keys[i..];
      }
      r
  }

  lemma PutKeepsOrder(keys: seq<int>, key: int)
    requires Increasing(keys) && key !in keys
    ensures var i := SearchSorted(keys, key);
            Increasing(keys[..i] + [key] + keys[i..])
  {
    var i := SearchSorted(keys, key);
    forall k | i <= k < |keys| ensures keys[k] > key {
      assert keys[k] in keys;
    }
  }

  function Remove<V>(d: SortedDict<V>, key: int): (r: SortedDict<V>)
    requires d.Valid() && key in d.at
    ensures r.Valid() && r.at == d.at - {key}
  {
    var i := SearchSorted(d.keys, key);
    assert d.keys[i] == key by {
      var j :| 0 <= j < |d.keys| && d.keys[j] == key;
    }
    var rest := d.keys[..i] + d.keys[i + 1..];
    assert forall k :: k in rest <==> k in d.keys && k != key by {
      Without(d.keys, i);
    }
    SortedDict(rest, d.at - {key})
  }

  lemma Without(keys: seq<int>, i: nat)
    requires Increasing(keys) && i < |keys|
    ensures var rest := keys[..i] + keys[i + 1..];
            Increasing(rest) && forall k :: k in rest <==> k in keys && k != keys[i]
  {
    var rest := keys[..i] + keys[i + 1..];
    assert forall j :: 0 <= j < |rest| ==> rest[j] == keys[if j < i then j else j + 1];
    forall k | k in keys && k != keys[i] ensures k in rest {
      var j :| 0 <= j < |keys| && keys[j] == k;
      assert rest[if j < i then j else j - 1] == k;
    }
  }

  lemma NextKey<V>(d: SortedDict<V>, k: nat)
    requires d.Valid() && k < |d.keys|
    ensures d.keys[k] in d.at && forall j :: j in d.keys[k..] <==> j == d.keys[k] || j in d.keys[k + 1..]
    ensures d.keys[k] !in d.keys[k + 1..]
  {
    assert d.keys[k] in d.keys && d.keys[k..] == [d.keys[k]] + d.keys[k + 1..];
  }

  /** Delete every key at or after `first`, walking a copy of the key list. */
  method DeleteFrom<V>(d: SortedDict<V>, first: int) returns (r: SortedDict<V>)
    requires d.Valid()
    ensures r.Valid()
    ensures forall k :: k in r.at <==> k in d.at && k < first
    ensures forall k :: k in r.at ==> r.at[k] == d.at[k]
  {
    r := d;
    for k := 0 to |d.keys|
      invariant r.Valid()
      invariant forall j :: j in r.at <==> j in d.at && (j < first || j in d.keys[k..])
      invariant forall j :: j in r.at ==> r.at[j] == d.at[j]
    {
      var key := d.keys[k];
      NextKey(d, k);
      if key >= first {
        hide SortedDict.Valid, Remove;
        r := Remove(r, key);
      }
    }
  }
}
