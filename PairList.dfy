/**
 * The ordered multimap behind `FormDataPolyfill`: a list of `(key, value)`
 * pairs in insertion order, with the array expressions the polyfill applies
 * to it (`find`, `findIndex`, `filter`, `map`, `some`) as functions.
 */
module PairList {
  import opened Wrappers

  /** Some entry's key is `k` (`has`). */
  predicate Has<V>(d: seq<(string, V)>, k: string)
    ensures Has(d, k) <==> exists i :: 0 <= i < |d| && d[i].0 == k
  {
    |d| > 0 && (d[0].0 == k || Has(d[1..], k))
  }

  /** The first index whose key is `k`, or -1 when there is none (`findIndex`, used by `set`). */
  function IndexOf<V>(d: seq<(string, V)>, k: string): (r: int)
    ensures -1 <= r < |d|
    ensures r == -1 <==> !Has(d, k)
    ensures 0 <= r ==> d[r].0 == k && forall i :: 0 <= i < r ==> d[i].0 != k
  {
    if |d| == 0 then -1
    else if d[0].0 == k then 0
    else
      var j := IndexOf(d[1..], k);
      if j == -1 then -1 else j + 1
  }

  /** `get`: the value of the first entry whose key is `k`, or None for `null`. */
  function Get<V>(d: seq<(string, V)>, k: string): (r: Option<V>)
    ensures r.None? <==> !Has(d, k)
    ensures r.Some? ==> r.value == d[IndexOf(d, k)].1
  {
    if |d| == 0 then None
    else if d[0].0 == k then Some(d[0].1)
    else Get(d[1..], k)
  }

  /** `getAll`: the values of all entries whose key is `k`, in insertion order. */
  function GetAll<V>(d: seq<(string, V)>, k: string): (r: seq<V>)
    ensures |r| <= |d|
    ensures r != [] <==> Has(d, k)
    ensures forall j :: 0 <= j < |r| ==> (k, r[j]) in d
  {
    if |d| == 0 then []
    else (if d[0].0 == k then [d[0].1] else []) + GetAll(d[1..], k)
  }

  /** The entries `delete(k)` keeps: all those whose key is not `k`, in order. */
  function Without<V>(d: seq<(string, V)>, k: string): (r: seq<(string, V)>)
    ensures |r| <= |d|
    ensures !Has(r, k)
    ensures forall j :: 0 <= j < |r| ==> r[j] in d
  {
    if |d| == 0 then []
    else (if d[0].0 != k then [d[0]] else []) + Without(d[1..], k)
  }

  /** The list after `set(k, v)`: the first entry with key `k` is overwritten in place; with none, `(k, v)` is appended. */
  function Set<V>(d: seq<(string, V)>, k: string, v: V): (r: seq<(string, V)>)
    ensures Has(d, k) ==> |r| == |d| && r[IndexOf(d, k)] == (k, v)
    ensures Has(d, k) ==> forall i :: 0 <= i < |d| && i != IndexOf(d, k) ==> r[i] == d[i]
    ensures !Has(d, k) ==> r == d + [(k, v)]
  {
    var i := IndexOf(d, k);
    if i != -1 then d[i := (k, v)] else d + [(k, v)]
  }

  /** `keys()`: the first projection of the list, in order. */
  function Keys<V>(d: seq<(string, V)>): (r: seq<string>)
    ensures |r| == |d|
    ensures forall i :: 0 <= i < |d| ==> r[i] == d[i].0
  {
    if |d| == 0 then [] else [d[0].0] + Keys(d[1..])
  }

  /** `values()`: the second projection of the list, in order. */
  function Values<V>(d: seq<(string, V)>): (r: seq<V>)
    ensures |r| == |d|
    ensures forall i :: 0 <= i < |d| ==> r[i] == d[i].1
  {
    if |d| == 0 then [] else [d[0].1] + Values(d[1..])
  }

  /** `a` can be obtained from `b` by dropping entries, without reordering. */
  ghost predicate Subsequence<T>(a: seq<T>, b: seq<T>)
    decreases |b|
  {
    if b == [] then a == []
    else (a != [] && a[0] == b[0] && Subsequence(a[1..], b[1..])) || Subsequence(a, b[1..])
  }

  // ---------------------------------------------------------------------------
  // Lemmas

  /** `getAll(k)` holds the value of every entry whose key is `k`. */
  lemma {:induction false} GetAllComplete<V>(d: seq<(string, V)>, k: string)
    ensures forall i :: 0 <= i < |d| && d[i].0 == k ==> d[i].1 in GetAll(d, k)
  {
    if |d| > 0 {
      GetAllComplete(d[1..], k);
      forall i | 0 < i < |d| && d[i].0 == k ensures d[i].1 in GetAll(d, k) {
        assert d[1..][i - 1] == d[i];
      }
    }
  }

  /** `delete(k)` keeps every entry whose key is not `k`. */
  lemma {:induction false} WithoutComplete<V>(d: seq<(string, V)>, k: string)
    ensures forall i :: 0 <= i < |d| && d[i].0 != k ==> d[i] in Without(d, k)
  {
    if |d| > 0 {
      WithoutComplete(d[1..], k);
      forall i | 0 < i < |d| && d[i].0 != k ensures d[i] in Without(d, k) {
        assert d[1..][i - 1] == d[i];
      }
    }
  }

  /** `getAll` distributes over concatenation: values come out in insertion order. */
  lemma {:induction false} GetAllConcat<V>(a: seq<(string, V)>, b: seq<(string, V)>, k: string)
    ensures GetAll(a + b, k) == GetAll(a, k) + GetAll(b, k)
  {
    if |a| > 0 {
      var head := if a[0].0 == k then [a[0].1] else [];
      assert (a + b)[0] == a[0];
      assert (a + b)[1..] == a[1..] + b;
      assert GetAll(a + b, k) == head + GetAll(a[1..] + b, k);
      assert GetAll(a, k) == head + GetAll(a[1..], k);
      GetAllConcat(a[1..], b, k);
    } else {
      assert a + b == b;
    }
  }

  /** `delete` distributes over concatenation: the kept entries keep their relative order. */
  lemma {:induction false} WithoutConcat<V>(a: seq<(string, V)>, b: seq<(string, V)>, k: string)
    ensures Without(a + b, k) == Without(a, k) + Without(b, k)
  {
    if |a| > 0 {
      assert (a + b)[1..] == a[1..] + b;
      WithoutConcat(a[1..], b, k);
    } else {
      assert a + b == b;
    }
  }

  /** What `delete(k)` keeps is a subsequence of the original list. */
  lemma {:induction false} WithoutIsSubsequence<V>(d: seq<(string, V)>, k: string)
    ensures Subsequence(Without(d, k), d)
  {
    if |d| > 0 {
      WithoutIsSubsequence(d[1..], k);
      if d[0].0 != k {
        assert Without(d, k) == [d[0]] + Without(d[1..], k);
        assert ([d[0]] + Without(d[1..], k))[1..] == Without(d[1..], k);
      } else {
        assert Without(d, k) == Without(d[1..], k);
      }
    }
  }

  /** `getAll` splits around any one entry. */
  lemma {:induction false} GetAllSplit<V>(d: seq<(string, V)>, i: int, k: string)
    requires 0 <= i < |d|
    ensures GetAll(d, k) == GetAll(d[..i], k) + (if d[i].0 == k then [d[i].1] else []) + GetAll(d[i + 1..], k)
  {
    var p, e, q := d[..i], [d[i]], d[i + 1..];
    assert d == p + e + q;
    GetAllConcat(p + e, q, k);
    GetAllConcat(p, e, k);
    assert e[1..] == [];
    assert GetAll(e, k) == if d[i].0 == k then [d[i].1] else [];
  }

  /** `get(k)` is the head of `getAll(k)`, and `null` exactly when `getAll(k)` is empty. */
  lemma {:induction false} GetIsFirstOfGetAll<V>(d: seq<(string, V)>, k: string)
    ensures Get(d, k) == if GetAll(d, k) == [] then None else Some(GetAll(d, k)[0])
  {
    if |d| > 0 && d[0].0 != k {
      GetIsFirstOfGetAll(d[1..], k);
    }
  }

  /** `delete(k)` leaves every other key's `getAll` and `get` as they were. */
  lemma {:induction false} WithoutKeepsOtherKeys<V>(d: seq<(string, V)>, k: string, j: string)
    requires j != k
    ensures GetAll(Without(d, k), j) == GetAll(d, j)
    ensures Get(Without(d, k), j) == Get(d, j)
  {
    if |d| > 0 {
      var w := Without(d[1..], k);
      WithoutKeepsOtherKeys(d[1..], k, j);
      if d[0].0 != k {
        assert Without(d, k) == [d[0]] + w;
        GetAllConcat([d[0]], w, j);
      } else {
        assert Without(d, k) == w;
      }
    }
    GetIsFirstOfGetAll(Without(d, k), j);
    GetIsFirstOfGetAll(d, j);
  }

  /** Deleting a key that is absent changes nothing. */
  lemma {:induction false} WithoutAbsent<V>(d: seq<(string, V)>, k: string)
    requires !Has(d, k)
    ensures Without(d, k) == d
  {
    if |d| > 0 {
      assert !Has(d[1..], k);
      WithoutAbsent(d[1..], k);
    }
  }

  /** `append(k, v)` adds `v` at the end of `getAll(k)` and does not change `get(k)` when `k` was present. */
  lemma {:induction false} AppendQueries<V>(d: seq<(string, V)>, k: string, v: V)
    ensures GetAll(d + [(k, v)], k) == GetAll(d, k) + [v]
    ensures Get(d + [(k, v)], k) == if Has(d, k) then Get(d, k) else Some(v)
  {
    GetAllConcat(d, [(k, v)], k);
    assert GetAll([(k, v)], k) == [v];
    GetIsFirstOfGetAll(d + [(k, v)], k);
    GetIsFirstOfGetAll(d, k);
  }

  /** After `set(k, v)`, `getAll(k)` starts with `v` and keeps the later duplicates; `get(k)` is `v`. */
  lemma {:induction false} SetQueries<V>(d: seq<(string, V)>, k: string, v: V)
    ensures GetAll(Set(d, k, v), k) == if Has(d, k) then [v] + GetAll(d, k)[1..] else GetAll(d, k) + [v]
    ensures Get(Set(d, k, v), k) == Some(v)
  {
    if Has(d, k) {
      SetReplacesFirst(d, k, v);
    } else {
      AppendQueries(d, k, v);
    }
    GetIsFirstOfGetAll(Set(d, k, v), k);
  }

  /** When `k` is present, `set(k, v)` swaps the first value of `getAll(k)` for `v` and keeps the rest. */
  lemma {:induction false} SetReplacesFirst<V>(d: seq<(string, V)>, k: string, v: V)
    requires Has(d, k)
    ensures GetAll(Set(d, k, v), k) == [v] + GetAll(d, k)[1..]
  {
    var i := IndexOf(d, k);
    var r := d[i := (k, v)];
    assert r == Set(d, k, v);
    assert r[..i] == d[..i] && r[i + 1..] == d[i + 1..];
    assert !Has(d[..i], k);
    GetAllSplit(d, i, k);
    GetAllSplit(r, i, k);
  }

  /** `set(k, v)` changes no other key's `getAll` or `get`. */
  lemma {:induction false} SetKeepsOtherKeys<V>(d: seq<(string, V)>, k: string, v: V, j: string)
    requires j != k
    ensures GetAll(Set(d, k, v), j) == GetAll(d, j)
    ensures Get(Set(d, k, v), j) == Get(d, j)
  {
    var r := Set(d, k, v);
    if Has(d, k) {
      var i := IndexOf(d, k);
      assert r[..i] == d[..i] && r[i + 1..] == d[i + 1..];
      GetAllSplit(d, i, j);
      GetAllSplit(r, i, j);
    } else {
      GetAllConcat(d, [(k, v)], j);
    }
    GetIsFirstOfGetAll(r, j);
    GetIsFirstOfGetAll(d, j);
  }
}
