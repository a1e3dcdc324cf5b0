/** The stable ascending sort the ranked matchers apply to their `(position, key)` records. A record
    is represented by its position; its key is `keys[position]`. */
module StableSort {

  predicate InRange(order: seq<nat>, n: nat)
  {
    forall k :: 0 <= k < |order| ==> order[k] < n
  }

  /** Position `a` sorts before position `b`: a smaller key, or an equal key and an earlier position. */
  predicate Precedes(keys: seq<real>, a: nat, b: nat)
    requires a < |keys| && b < |keys|
  {
    keys[a] < keys[b] || (keys[a] == keys[b] && a < b)
  }

  /** Ascending by key, ties in portfolio order: what a stable sort of records listed in position
      order produces. */
  predicate SortedByKey(keys: seq<real>, order: seq<nat>)
    requires InRange(order, |keys|)
  {
    forall i, j :: 0 <= i < j < |order| ==> Precedes(keys, order[i], order[j])
  }

  predicate Increasing(order: seq<nat>)
  {
    forall i, j :: 0 <= i < j < |order| ==> order[i] < order[j]
  }

  /** Places `p` before the first entry whose key is not smaller than its own. */
  function Insert(keys: seq<real>, p: nat, order: seq<nat>): (r: seq<nat>)
    requires p < |keys| && InRange(order, |keys|)
    ensures multiset(r) == multiset(order) + multiset{p}
    ensures InRange(r, |keys|)
  {
    if order == [] then [p]
    else if keys[p] <= keys[order[0]] then [p] + order
    else
      assert order == [order[0]] + order[1..];
      [order[0]] + Insert(keys, p, order[1..])
  }

  /** Insertion sort of `order` by key. */
  function SortPositions(keys: seq<real>, order: seq<nat>): (r: seq<nat>)
    requires InRange(order, |keys|)
    ensures multiset(r) == multiset(order)
    ensures InRange(r, |keys|)
  {
    if order == [] then []
    else
      assert order == [order[0]] + order[1..];
      Insert(keys, order[0], SortPositions(keys, order[1..]))
  }

  /** Inserting a position smaller than every position already sorted keeps the order sorted. */
  lemma {:induction false} InsertSorted(keys: seq<real>, p: nat, order: seq<nat>)
    requires p < |keys| && InRange(order, |keys|)
    requires SortedByKey(keys, order)
    requires forall q :: q in order ==> p < q
    ensures SortedByKey(keys, Insert(keys, p, order))
  {
    var r := Insert(keys, p, order);
    if order == [] {
    } else if keys[p] <= keys[order[0]] {
      forall i, j | 0 <= i < j < |r| ensures Precedes(keys, r[i], r[j]) {
        if i == 0 {
          assert r[j] == order[j - 1] && order[j - 1] in order;
          if j > 1 {
            assert Precedes(keys, order[0], order[j - 1]);
          }
        } else {
          assert r[i] == order[i - 1] && r[j] == order[j - 1];
        }
      }
    } else {
      var rest := Insert(keys, p, order[1..]);
      assert SortedByKey(keys, order[1..]) by {
        forall i, j | 0 <= i < j < |order[1..]| ensures Precedes(keys, order[1..][i], order[1..][j]) {
          assert order[1..][i] == order[i + 1] && order[1..][j] == order[j + 1];
        }
      }
      forall q | q in order[1..] ensures p < q {
        assert q in order;
      }
      InsertSorted(keys, p, order[1..]);
      assert r == [order[0]] + rest;
      forall j | 0 <= j < |rest| ensures Precedes(keys, order[0], rest[j]) {
        assert rest[j] in multiset(rest);
        if rest[j] != p {
          assert rest[j] in multiset(order[1..]);
          var m :| 0 <= m < |order[1..]| && order[1..][m] == rest[j];
          assert Precedes(keys, order[0], order[m + 1]);
        }
      }
      forall i, j | 0 <= i < j < |r| ensures Precedes(keys, r[i], r[j]) {
        if i == 0 {
          assert r[j] == rest[j - 1];
        } else {
          assert r[i] == rest[i - 1] && r[j] == rest[j - 1];
        }
      }
    }
  }

  /** Sorting positions listed in increasing order yields them ascending by key, ties in their
      original order: the sort is stable. */
  lemma {:induction false} SortStable(keys: seq<real>, order: seq<nat>)
    requires InRange(order, |keys|) && Increasing(order)
    ensures SortedByKey(keys, SortPositions(keys, order))
  {
    if order != [] {
      SortStable(keys, order[1..]);
      var sorted := SortPositions(keys, order[1..]);
      forall q | q in sorted ensures order[0] < q {
        assert q in multiset(sorted);
        assert q in multiset(order[1..]);
        var m :| 0 <= m < |order[1..]| && order[1..][m] == q;
        assert order[m + 1] == q;
      }
      InsertSorted(keys, order[0], sorted);
    }
  }

  /** A sorted order lists no position twice, and lists a position with a smaller key first. */
  lemma SortedFacts(keys: seq<real>, order: seq<nat>, i: nat, j: nat)
    requires InRange(order, |keys|) && SortedByKey(keys, order)
    requires i < |order| && j < |order|
    ensures i != j ==> order[i] != order[j]
    ensures keys[order[i]] < keys[order[j]] ==> i < j
  {
    if i < j {
      assert Precedes(keys, order[i], order[j]);
    } else if j < i {
      assert Precedes(keys, order[j], order[i]);
    }
  }

  /** The positions `0, 1, ..., n - 1`, the order in which the records are built. */
  function Indices(n: nat): (r: seq<nat>)
    ensures |r| == n && forall k :: 0 <= k < n ==> r[k] == k
  {
    seq(n, k => k)
  }
}
