/**
 * PHP arrays as the two core files use them: ordered maps from keys to values.
 * Keys are kept as strings; PHP stores a decimal-integer string key and the
 * integer itself under one key, so nothing distinguishes them here either.
 */
module PhpArray {
  import opened Wrappers

  /** The keys of an ordered array, in order. */
  function Keys<V>(a: seq<(string, V)>): seq<string>
  {
    seq(|a|, i requires 0 <= i < |a| => a[i].0)
  }

  /** Every PHP array has pairwise distinct keys. */
  predicate UniqueKeys<V>(a: seq<(string, V)>)
  {
    forall i, j :: 0 <= i < j < |a| ==> a[i].0 != a[j].0
  }

  /** An array is unique-keyed exactly when its head key is not among the tail's and the tail is. */
  lemma UniqueKeysCons<V>(a: seq<(string, V)>)
    requires a != []
    ensures UniqueKeys(a) <==> a[0].0 !in Keys(a[1..]) && UniqueKeys(a[1..])
  {
    assert Keys(a) == [a[0].0] + Keys(a[1..]);
    if a[0].0 !in Keys(a[1..]) && UniqueKeys(a[1..]) {
      forall i, j | 0 <= i < j < |a| ensures a[i].0 != a[j].0 {
        if i > 0 { assert a[i].0 == a[1..][i - 1].0 && a[j].0 == a[1..][j - 1].0; }
        else { assert a[j].0 == Keys(a[1..])[j - 1]; }
      }
    }
    if UniqueKeys(a) {
      forall i, j | 0 <= i < j < |a[1..]| ensures a[1..][i].0 != a[1..][j].0 {
        assert a[1..][i] == a[i + 1] && a[1..][j] == a[j + 1];
      }
    }
  }

  /** An array with one more entry at the end is unique-keyed when the shorter one is and the new key is fresh. */
  lemma UniqueKeysSnoc<V>(a: seq<(string, V)>, x: (string, V))
    ensures UniqueKeys(a + [x]) <==> UniqueKeys(a) && x.0 !in Keys(a)
  {
    var b := a + [x];
    if UniqueKeys(b) {
      forall i, j | 0 <= i < j < |a| ensures a[i].0 != a[j].0 {
        assert a[i] == b[i] && a[j] == b[j];
      }
      forall j | 0 <= j < |a| ensures Keys(a)[j] != x.0 {
        assert b[j].0 != b[|a|].0;
      }
    }
    if UniqueKeys(a) && x.0 !in Keys(a) {
      forall i, j | 0 <= i < j < |b| ensures b[i].0 != b[j].0 {
        if j == |a| { assert Keys(a)[i] == b[i].0; }
      }
    }
  }

  /** `$a[$k]`, or None when the key is unset. */
  function Lookup<V>(a: seq<(string, V)>, k: string): (r: Option<V>)
    ensures r.Some? <==> k in Keys(a)
  {
    if a == [] then None
    else
      assert Keys(a) == [a[0].0] + Keys(a[1..]);
      if a[0].0 == k then Some(a[0].1) else Lookup(a[1..], k)
  }

  /** `$a[$k] = $v`: an existing key keeps its position, a new key goes last. */
  function Put<V>(a: seq<(string, V)>, k: string, v: V): (r: seq<(string, V)>)
    ensures Lookup(r, k) == Some(v)
    ensures forall j :: j != k ==> Lookup(r, j) == Lookup(a, j)
    ensures k !in Keys(a) ==> r == a + [(k, v)]
    ensures k in Keys(a) ==> Keys(r) == Keys(a)
  {
    if a == [] then [(k, v)]
    else
      assert Keys(a) == [a[0].0] + Keys(a[1..]);
      if a[0].0 == k then
        var r := [(k, v)] + a[1..];
        assert Keys(r) == [k] + Keys(a[1..]);
        r
      else
        var t := Put(a[1..], k, v);
        PutCons(a, k, v, t);
        [a[0]] + t
  }

  lemma PutCons<V>(a: seq<(string, V)>, k: string, v: V, t: seq<(string, V)>)
    requires a != [] && a[0].0 != k
    requires Lookup(t, k) == Some(v)
    requires forall j :: j != k ==> Lookup(t, j) == Lookup(a[1..], j)
    requires k !in Keys(a[1..]) ==> t == a[1..] + [(k, v)]
    requires k in Keys(a[1..]) ==> Keys(t) == Keys(a[1..])
    ensures Lookup([a[0]] + t, k) == Some(v)
    ensures forall j :: j != k ==> Lookup([a[0]] + t, j) == Lookup(a, j)
    ensures k !in Keys(a) ==> [a[0]] + t == a + [(k, v)]
    ensures k in Keys(a) ==> Keys([a[0]] + t) == Keys(a)
  {
    var r := [a[0]] + t;
    assert r[0] == a[0] && r[1..] == t;
    assert Keys(a) == [a[0].0] + Keys(a[1..]);
    assert Keys(r) == [a[0].0] + Keys(t);
    assert a == [a[0]] + a[1..];
  }

  /** Assigning a key adds no entry other than the assigned one. */
  lemma {:induction false} PutEntries<V>(a: seq<(string, V)>, k: string, v: V)
    ensures forall e :: e in Put(a, k, v) ==> e == (k, v) || e in a
  {
    if a != [] && a[0].0 != k {
      PutEntries(a[1..], k, v);
      assert Put(a, k, v) == [a[0]] + Put(a[1..], k, v);
    }
  }

  /** Assigning a key keeps the keys of a PHP array distinct. */
  lemma {:induction false} PutKeepsUniqueKeys<V>(a: seq<(string, V)>, k: string, v: V)
    requires UniqueKeys(a)
    ensures UniqueKeys(Put(a, k, v))
  {
    if a != [] {
      UniqueKeysCons(a);
      var r := Put(a, k, v);
      assert Keys(a) == [a[0].0] + Keys(a[1..]);
      if a[0].0 == k {
        assert r[1..] == a[1..];
      } else {
        PutKeepsUniqueKeys(a[1..], k, v);
        assert r[1..] == Put(a[1..], k, v);
        assert Lookup(r[1..], a[0].0) == Lookup(a[1..], a[0].0);
      }
      UniqueKeysCons(r);
    }
  }

  /** `unset($a[$k])`: every other entry stays, in order. */
  function Remove<V>(a: seq<(string, V)>, k: string): (r: seq<(string, V)>)
    ensures k !in Keys(r)
    ensures |r| <= |a|
  {
    if a == [] then []
    else
      var rest := Remove(a[1..], k);
      if a[0].0 == k then rest
      else
        var r := [a[0]] + rest;
        assert Keys(r) == [a[0].0] + Keys(rest);
        r
  }

  /** Unsetting a key leaves every other key, and only those. */
  lemma {:induction false} RemoveKeys<V>(a: seq<(string, V)>, k: string)
    ensures forall j :: j in Keys(Remove(a, k)) <==> j in Keys(a) && j != k
  {
    if a != [] {
      assert Keys(a) == [a[0].0] + Keys(a[1..]);
      RemoveKeys(a[1..], k);
      var rest := Remove(a[1..], k);
      if a[0].0 != k {
        assert Keys([a[0]] + rest) == [a[0].0] + Keys(rest);
      }
    }
  }

  /** Unsetting a key leaves the value under every other key as it was. */
  lemma {:induction false} RemoveLookup<V>(a: seq<(string, V)>, k: string, j: string)
    requires j != k
    ensures Lookup(Remove(a, k), j) == Lookup(a, j)
  {
    if a != [] {
      RemoveLookup(a[1..], k, j);
    }
  }

  /** Unsetting a key keeps the keys of a PHP array distinct. */
  lemma {:induction false} RemoveKeepsUniqueKeys<V>(a: seq<(string, V)>, k: string)
    requires UniqueKeys(a)
    ensures UniqueKeys(Remove(a, k))
  {
    if a != [] {
      UniqueKeysCons(a);
      RemoveKeepsUniqueKeys(a[1..], k);
      RemoveKeys(a[1..], k);
      var rest := Remove(a[1..], k);
      if a[0].0 != k {
        var r := [a[0]] + rest;
        assert r[1..] == rest;
        UniqueKeysCons(r);
      }
    }
  }

  /** Removing a key from an array with one more entry at the end. */
  lemma {:induction false} RemoveSnoc<V>(a: seq<(string, V)>, x: (string, V), k: string)
    ensures Remove(a + [x], k) == Remove(a, k) + (if x.0 == k then [] else [x])
  {
    if a != [] {
      assert (a + [x])[1..] == a[1..] + [x];
      RemoveSnoc(a[1..], x, k);
    }
  }

  /** `Arr::get($a, $k, $default)`: a present key wins even when its value is null. */
  function Get<V>(a: seq<(string, V)>, k: string, default: V): (r: V)
    ensures k !in Keys(a) ==> r == default
    ensures k in Keys(a) ==> Lookup(a, k) == Some(r)
  {
    match Lookup(a, k)
    case Some(v) => v
    case None => default
  }

  /** `Arr::pull($a, $k)`: the value under `k` (if any) and the array without `k`. */
  function Pull<V>(a: seq<(string, V)>, k: string): (r: (Option<V>, seq<(string, V)>))
    ensures r.0 == Lookup(a, k)
    ensures k !in Keys(r.1)
  {
    (Lookup(a, k), Remove(a, k))
  }
}
