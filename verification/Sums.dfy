/** Sums, filters and stable ordering over table rows. */
module Sums {

  /** The SQL aggregate SUM over rows, weighting each row by `f`. */
  function Sum<T>(s: seq<T>, f: T -> int): int {
    if s == [] then 0 else f(s[0]) + Sum(s[1..], f)
  }

  /** WHERE: the rows satisfying `p`, in table order. */
  function Keep<T(!new)>(s: seq<T>, p: T -> bool): (r: seq<T>)
    ensures forall x :: x in r <==> x in s && p(x)
  {
    if s == [] then [] else (if p(s[0]) then [s[0]] else []) + Keep(s[1..], p)
  }

  function InsertBy<T>(x: T, s: seq<T>, key: T -> int): (r: seq<T>)
    ensures multiset(r) == multiset(s) + multiset{x}
  {
    if s == [] || key(x) <= key(s[0]) then
      assert multiset([x] + s) == multiset(s) + multiset{x};
      [x] + s
    else
      assert s == [s[0]] + s[1..];
      [s[0]] + InsertBy(x, s[1..], key)
  }

  /** ORDER BY key: a stable sort, so rows stored in id order come out ordered by (key, id). */
  function OrderBy<T>(s: seq<T>, key: T -> int): (r: seq<T>)
    ensures multiset(r) == multiset(s)
  {
    if s == [] then [] else
      assert s == [s[0]] + s[1..];
      InsertBy(s[0], OrderBy(s[1..], key), key)
  }

  lemma {:induction false} SumConcat<T(!new)>(a: seq<T>, b: seq<T>, f: T -> int)
    ensures Sum(a + b, f) == Sum(a, f) + Sum(b, f)
  {
    if a == [] {
      assert a + b == b;
    } else {
      assert (a + b)[1..] == a[1..] + b;
      SumConcat(a[1..], b, f);
    }
  }

  lemma SumAppend<T(!new)>(s: seq<T>, x: T, f: T -> int)
    ensures Sum(s + [x], f) == Sum(s, f) + f(x)
  {
    SumConcat(s, [x], f);
  }

  /** Two tables whose rows weigh the same, pairwise, have the same sum. */
  lemma {:induction false} SumSame<A(!new), B(!new)>(s: seq<A>, t: seq<B>, f: A -> int, g: B -> int)
    requires |s| == |t|
    requires forall i :: 0 <= i < |s| ==> f(s[i]) == g(t[i])
    ensures Sum(s, f) == Sum(t, g)
  {
    if s != [] {
      SumSame(s[1..], t[1..], f, g);
    }
  }

  /** Weights that add up pairwise add up in total. */
  lemma {:induction false} SumAdd<A(!new), B(!new)>(s: seq<A>, t: seq<B>, f: A -> int, g: A -> int, h: B -> int)
    requires |s| == |t|
    requires forall i :: 0 <= i < |s| ==> h(t[i]) == f(s[i]) + g(s[i])
    ensures Sum(t, h) == Sum(s, f) + Sum(s, g)
  {
    if s != [] {
      SumAdd(s[1..], t[1..], f, g, h);
    }
  }

  lemma {:induction false} SumAtMost<T(!new)>(s: seq<T>, f: T -> int, g: T -> int)
    requires forall i :: 0 <= i < |s| ==> f(s[i]) <= g(s[i])
    ensures Sum(s, f) <= Sum(s, g)
  {
    if s != [] {
      SumAtMost(s[1..], f, g);
    }
  }

  lemma {:induction false} SumZero<T(!new)>(s: seq<T>, f: T -> int)
    requires forall i :: 0 <= i < |s| ==> f(s[i]) == 0
    ensures Sum(s, f) == 0
  {
    if s != [] {
      SumZero(s[1..], f);
    }
  }

  /** A sum of non-negative weights is at least any one of them. */
  lemma {:induction false} SumNonNegative<T(!new)>(s: seq<T>, f: T -> int)
    requires forall i :: 0 <= i < |s| ==> 0 <= f(s[i])
    ensures 0 <= Sum(s, f)
    ensures forall i :: 0 <= i < |s| ==> f(s[i]) <= Sum(s, f)
  {
    if s != [] {
      SumNonNegative(s[1..], f);
      forall i | 0 <= i < |s| ensures f(s[i]) <= Sum(s, f) {
        if i > 0 {
          assert s[i] == s[1..][i - 1];
        }
      }
    }
  }

  /** If only row `k` carries weight, the sum is that row's weight. */
  lemma {:induction false} SumOnly<T(!new)>(s: seq<T>, k: nat, f: T -> int)
    requires k < |s|
    requires forall i :: 0 <= i < |s| && i != k ==> f(s[i]) == 0
    ensures Sum(s, f) == f(s[k])
  {
    if k == 0 {
      SumZero(s[1..], f);
    } else {
      SumOnly(s[1..], k - 1, f);
    }
  }

  /** Only row `k` weighs differently in `t`: the sum moves by that row's change. */
  lemma {:induction false} SumChange<T(!new)>(s: seq<T>, t: seq<T>, k: nat, f: T -> int, g: T -> int)
    requires k < |s| == |t|
    requires forall i :: 0 <= i < |s| && i != k ==> f(s[i]) == g(t[i])
    ensures Sum(t, g) == Sum(s, f) - f(s[k]) + g(t[k])
  {
    if k == 0 {
      SumSame(s[1..], t[1..], f, g);
    } else {
      SumChange(s[1..], t[1..], k - 1, f, g);
    }
  }

  /** Filtering may be traded for masking the weight. */
  lemma {:induction false} SumKeep<T(!new)>(s: seq<T>, p: T -> bool, f: T -> int, g: T -> int)
    requires forall i :: 0 <= i < |s| ==> g(s[i]) == if p(s[i]) then f(s[i]) else 0
    ensures Sum(Keep(s, p), f) == Sum(s, g)
  {
    if s != [] {
      SumConcat(if p(s[0]) then [s[0]] else [], Keep(s[1..], p), f);
      SumKeep(s[1..], p, f, g);
    }
  }

  lemma {:induction false} SumInsertBy<T(!new)>(x: T, s: seq<T>, key: T -> int, f: T -> int)
    ensures Sum(InsertBy(x, s, key), f) == f(x) + Sum(s, f)
  {
    if s != [] && key(x) > key(s[0]) {
      SumInsertBy(x, s[1..], key, f);
      assert InsertBy(x, s, key)[1..] == InsertBy(x, s[1..], key);
    } else {
      assert ([x] + s)[1..] == s;
    }
  }

  lemma {:induction false} SumOrderBy<T(!new)>(s: seq<T>, key: T -> int, f: T -> int)
    ensures Sum(OrderBy(s, key), f) == Sum(s, f)
  {
    if s != [] {
      SumInsertBy(s[0], OrderBy(s[1..], key), key, f);
      SumOrderBy(s[1..], key, f);
    }
  }

  lemma InOrderBy<T(!new)>(s: seq<T>, key: T -> int)
    ensures forall x :: x in OrderBy(s, key) <==> x in s
    ensures |OrderBy(s, key)| == |s|
  {
    var r := OrderBy(s, key);
    assert |multiset(r)| == |r| && |multiset(s)| == |s|;
    assert forall x :: x in r <==> x in multiset(r);
    assert forall x :: x in s <==> x in multiset(s);
  }

  /** Lexicographic (key, id) order. */
  predicate Before<T>(x: T, y: T, key: T -> int, id: T -> int) {
    key(x) < key(y) || (key(x) == key(y) && id(x) < id(y))
  }

  ghost predicate Ordered<T>(s: seq<T>, key: T -> int, id: T -> int) {
    forall i, j :: 0 <= i < j < |s| ==> Before(s[i], s[j], key, id)
  }

  lemma OrderedCons<T(!new)>(x: T, s: seq<T>, key: T -> int, id: T -> int)
    requires Ordered(s, key, id)
    requires forall y :: y in s ==> Before(x, y, key, id)
    ensures Ordered([x] + s, key, id)
  {
    var w := [x] + s;
    forall i, j | 0 <= i < j < |w| ensures Before(w[i], w[j], key, id) {
      assert w[j] == s[j - 1] && w[j] in s;
      if i > 0 {
        assert w[i] == s[i - 1];
      }
    }
  }

  lemma OrderedTail<T(!new)>(s: seq<T>, key: T -> int, id: T -> int)
    requires Ordered(s, key, id) && s != []
    ensures Ordered(s[1..], key, id)
    ensures forall y :: y in s[1..] ==> Before(s[0], y, key, id)
  {
    forall i, j | 0 <= i < j < |s[1..]| ensures Before(s[1..][i], s[1..][j], key, id) {
      assert Before(s[i + 1], s[j + 1], key, id);
    }
    forall y | y in s[1..] ensures Before(s[0], y, key, id) {
      var k :| 0 <= k < |s[1..]| && s[1..][k] == y;
      assert Before(s[0], s[k + 1], key, id);
    }
  }

  lemma {:induction false} InsertByOrdered<T(!new)>(x: T, s: seq<T>, key: T -> int, id: T -> int)
    requires Ordered(s, key, id)
    requires forall y :: y in s ==> id(x) < id(y)
    ensures Ordered(InsertBy(x, s, key), key, id)
  {
    if s != [] {
      OrderedTail(s, key, id);
      assert s == [s[0]] + s[1..];
      if key(x) > key(s[0]) {
        InsertByOrdered(x, s[1..], key, id);
        var r := InsertBy(x, s[1..], key);
        forall y | y in r ensures Before(s[0], y, key, id) {
          assert y in multiset(r);
        }
        OrderedCons(s[0], r, key, id);
      } else {
        forall y | y in s ensures Before(x, y, key, id) {
          assert y == s[0] || y in s[1..];
        }
        OrderedCons(x, s, key, id);
      }
    }
  }

  /** ORDER BY key, id: ordering rows stored in id order is ordering by (key, id). */
  lemma {:induction false} OrderByOrdered<T(!new)>(s: seq<T>, key: T -> int, id: T -> int)
    requires Ordered(s, id, id)
    ensures Ordered(OrderBy(s, key), key, id)
  {
    if s != [] {
      OrderedTail(s, id, id);
      OrderByOrdered(s[1..], key, id);
      InOrderBy(s[1..], key);
      InsertByOrdered(s[0], OrderBy(s[1..], key), key, id);
    }
  }

  lemma {:induction false} KeepOrdered<T(!new)>(s: seq<T>, p: T -> bool, key: T -> int, id: T -> int)
    requires Ordered(s, key, id)
    ensures Ordered(Keep(s, p), key, id)
  {
    if s != [] {
      OrderedTail(s, key, id);
      KeepOrdered(s[1..], p, key, id);
      assert [] + Keep(s[1..], p) == Keep(s[1..], p);
      if p(s[0]) {
        OrderedCons(s[0], Keep(s[1..], p), key, id);
      }
    }
  }

  lemma {:induction false} KeepAll<T(!new)>(s: seq<T>, p: T -> bool)
    requires forall x :: x in s ==> p(x)
    ensures Keep(s, p) == s
  {
    if s != [] {
      KeepAll(s[1..], p);
    }
  }

  lemma {:induction false} KeepConcat<T(!new)>(a: seq<T>, b: seq<T>, p: T -> bool)
    ensures Keep(a + b, p) == Keep(a, p) + Keep(b, p)
  {
    if a == [] {
      assert a + b == b;
    } else {
      assert (a + b)[1..] == a[1..] + b;
      KeepConcat(a[1..], b, p);
    }
  }

  lemma {:induction false} KeepNone<T(!new)>(s: seq<T>, p: T -> bool)
    requires forall i :: 0 <= i < |s| ==> !p(s[i])
    ensures Keep(s, p) == []
  {
    if s != [] {
      KeepNone(s[1..], p);
    }
  }

  ghost predicate SortedBy<T(!new)>(s: seq<T>, key: T -> int) { forall i, j :: 0 <= i < j < |s| ==> key(s[i]) <= key(s[j]) }

  lemma {:induction false} OrderBySorted<T(!new)>(s: seq<T>, key: T -> int)
    ensures SortedBy(OrderBy(s, key), key)
  {
    if s != [] {
      OrderBySorted(s[1..], key);
      InsertSorted(s[0], OrderBy(s[1..], key), key);
    }
  }

  lemma SortedCons<T(!new)>(x: T, s: seq<T>, key: T -> int)
    requires SortedBy(s, key) && forall y :: y in s ==> key(x) <= key(y)
    ensures SortedBy([x] + s, key)
  {
  }

  lemma {:induction false} InsertSorted<T(!new)>(x: T, s: seq<T>, key: T -> int)
    requires SortedBy(s, key)
    ensures SortedBy(InsertBy(x, s, key), key)
  {
    if s == [] || key(x) <= key(s[0]) {
      SortedCons(x, s, key);
    } else {
      var rest := InsertBy(x, s[1..], key);
      InsertSorted(x, s[1..], key);
      forall y | y in rest ensures key(s[0]) <= key(y) {
        assert y in multiset(rest);
        assert y == x || y in s[1..];
      }
      SortedCons(s[0], rest, key);
    }
  }

  /** Ordering a table that is in order changes nothing. */
  lemma {:induction false} OrderByInOrder<T(!new)>(s: seq<T>, key: T -> int)
    requires forall i, j :: 0 <= i < j < |s| ==> key(s[i]) <= key(s[j])
    ensures OrderBy(s, key) == s
  {
    if s != [] {
      OrderByInOrder(s[1..], key);
      assert s == [s[0]] + s[1..];
      assert |s| > 1 ==> s[1] == s[1..][0];
    }
  }

  lemma InsertByCases<T(!new)>(x: T, s: seq<T>, key: T -> int)
    ensures s == [] || key(x) <= key(s[0]) ==> InsertBy(x, s, key) == [x] + s
    ensures s != [] && key(x) > key(s[0]) ==> InsertBy(x, s, key) == [s[0]] + InsertBy(x, s[1..], key)
  {
  }

  lemma SnocCons<T(!new)>(x: T, s: seq<T>, last: T)
    ensures [x] + (s + [last]) == ([x] + s) + [last]
    ensures s != [] ==> (s + [last])[0] == s[0] && (s + [last])[1..] == s[1..] + [last]
  {
  }

  lemma {:induction false} InsertBySnoc<T(!new)>(x: T, s: seq<T>, last: T, key: T -> int)
    requires key(x) <= key(last)
    ensures InsertBy(x, s + [last], key) == InsertBy(x, s, key) + [last]
  {
    hide InsertBy;
    InsertByCases(x, s + [last], key);
    InsertByCases(x, s, key);
    SnocCons(x, s, last);
    if s != [] && key(x) > key(s[0]) {
      InsertBySnoc(x, s[1..], last, key);
      SnocCons(s[0], InsertBy(x, s[1..], key), last);
    }
  }

  /** A row that comes last in time comes last in the order. */
  lemma {:induction false} OrderBySnoc<T(!new)>(s: seq<T>, last: T, key: T -> int)
    requires forall i :: 0 <= i < |s| ==> key(s[i]) <= key(last)
    ensures OrderBy(s + [last], key) == OrderBy(s, key) + [last]
  {
    if s == [] {
      assert s + [last] == [last] && [last][1..] == [];
    } else {
      OrderBySnoc(s[1..], last, key);
      assert (s + [last])[1..] == s[1..] + [last];
      InsertBySnoc(s[0], OrderBy(s[1..], key), last, key);
    }
  }

  /** Two filters one after the other, the first of which keeps all that the second does. */
  lemma {:induction false} KeepKept<T(!new)>(s: seq<T>, p: T -> bool, q: T -> bool)
    requires forall x :: q(x) ==> p(x)
    ensures Keep(Keep(s, p), q) == Keep(s, q)
  {
    if s != [] {
      KeepKept(s[1..], p, q);
      KeepConcat(if p(s[0]) then [s[0]] else [], Keep(s[1..], p), q);
    }
  }

  function Min(a: int, b: int): int { if a < b then a else b }
}
