/** `list.sort(key=..., reverse=True)`: by descending key, equal keys in their old order. */
module Ranking {

  /** Where a key `x` goes among the first `n` of the sorted indices `r`: after every equal one. */
  function Place(keys: seq<real>, r: seq<nat>, x: real, n: nat): (p: nat)
    requires n <= |r| && forall j :: 0 <= j < |r| ==> r[j] < |keys|
    ensures p <= n
  {
    if n == 0 || keys[r[n - 1]] >= x then n else Place(keys, r, x, n - 1)
  }

  /** The indices of the first `n` keys, sorted. */
  function Order(keys: seq<real>, n: nat): (r: seq<nat>)
    requires n <= |keys|
    ensures |r| == n && forall j :: 0 <= j < |r| ==> r[j] < n
  {
    if n == 0 then []
    else
      var r := Order(keys, n - 1);
      var p := Place(keys, r, keys[n - 1], n - 1);
      r[..p] + [n - 1] + r[p..]
  }

  function SortDesc<T>(s: seq<T>, keys: seq<real>): (r: seq<T>)
    requires |s| == |keys|
    ensures |r| == |s|
  {
    var order := Order(keys, |s|);
    seq(|s|, p requires 0 <= p < |s| => s[order[p]])
  }

  /** Index `i` comes before index `j`. */
  predicate Ahead(keys: seq<real>, i: nat, j: nat)
    requires i < |keys| && j < |keys|
  {
    keys[i] > keys[j] || (keys[i] == keys[j] && i < j)
  }

  ghost predicate Sorted(keys: seq<real>, r: seq<nat>) {
    && (forall j :: 0 <= j < |r| ==> r[j] < |keys|)
    && forall p, q :: 0 <= p < q < |r| ==> Ahead(keys, r[p], r[q])
  }

  lemma {:induction false} PlaceSplits(keys: seq<real>, r: seq<nat>, x: real, n: nat)
    requires n <= |r| && Sorted(keys, r)
    ensures var p := Place(keys, r, x, n);
            && (forall j :: 0 <= j < p ==> keys[r[j]] >= x)
            && (forall j :: p <= j < n ==> keys[r[j]] < x)
  {
    if n > 0 {
      if keys[r[n - 1]] >= x {
        forall j | 0 <= j < n
          ensures keys[r[j]] >= x
        {
          if j < n - 1 {
            assert Ahead(keys, r[j], r[n - 1]);
          }
        }
      } else {
        PlaceSplits(keys, r, x, n - 1);
      }
    }
  }

  lemma InsertSorted(keys: seq<real>, r: seq<nat>, i: nat, p: nat)
    requires i < |keys| && Sorted(keys, r) && p <= |r|
    requires forall j :: 0 <= j < |r| ==> r[j] < i
    requires forall j :: 0 <= j < p ==> keys[r[j]] >= keys[i]
    requires forall j :: p <= j < |r| ==> keys[r[j]] < keys[i]
    ensures Sorted(keys, r[..p] + [i] + r[p..])
  {
    var r' := r[..p] + [i] + r[p..];
    forall a, b | 0 <= a < b < |r'|
      ensures Ahead(keys, r'[a], r'[b])
    {
      if a < p {
        assert r'[a] == r[a];
      } else if a > p {
        assert r'[a] == r[a - 1];
      }
      if b < p {
        assert r'[b] == r[b];
      } else if b > p {
        assert r'[b] == r[b - 1];
      }
    }
  }

  lemma {:induction false} OrderSorted(keys: seq<real>, n: nat)
    requires n <= |keys|
    ensures Sorted(keys, Order(keys, n))
  {
    if n > 0 {
      OrderSorted(keys, n - 1);
      var r := Order(keys, n - 1);
      PlaceSplits(keys, r, keys[n - 1], n - 1);
      InsertSorted(keys, r, n - 1, Place(keys, r, keys[n - 1], n - 1));
    }
  }

  lemma {:induction false} OrderHasAll(keys: seq<real>, n: nat, i: nat) returns (p: nat)
    requires i < n <= |keys|
    ensures p < n && Order(keys, n)[p] == i
  {
    var r := Order(keys, n - 1);
    var at := Place(keys, r, keys[n - 1], n - 1);
    if i == n - 1 {
      p := at;
    } else {
      var q := OrderHasAll(keys, n - 1, i);
      p := if q < at then q else q + 1;
    }
  }

  lemma OrderAhead(keys: seq<real>, p: nat, q: nat)
    requires p < q < |keys|
    ensures Ahead(keys, Order(keys, |keys|)[p], Order(keys, |keys|)[q])
  {
    OrderSorted(keys, |keys|);
  }

  /** The sort is a permutation, and of two items the one with the greater key, or of equal keys
      the one that stood first, comes first. */
  lemma SortDescIsStable(keys: seq<real>, i: nat, j: nat) returns (p: nat, q: nat)
    requires i < |keys| && j < |keys| && Ahead(keys, i, j)
    ensures p < q < |keys| && Order(keys, |keys|)[p] == i && Order(keys, |keys|)[q] == j
  {
    p := OrderHasAll(keys, |keys|, i);
    q := OrderHasAll(keys, |keys|, j);
    if q < p {
      OrderAhead(keys, q, p);
      assert false;
    }
  }
}
