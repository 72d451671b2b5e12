/// Ordering the units by descending price, stably, and taking the dearest ones.
///
/// The source calls `Array.prototype.sort` with the comparator
/// `b.unitPrice - a.unitPrice`; ECMAScript requires that sort to be stable,
/// so units of equal price keep their expansion order. `InsSort` is the
/// specification: a stable insertion sort over sequences. `SortedUnique`
/// shows that every stable descending sort yields the same sequence, so any
/// stable algorithm the engine picks agrees with it. `SortByPriceDescending`
/// sorts an array in place and is proved to produce `InsSort` of its input.

module StableSort {
  import opened Cart

  /** Prices never increase from left to right. */
  ghost predicate SortedDesc(s: seq<Unit>)
  {
    forall i, j :: 0 <= i < j < |s| ==> s[i].price >= s[j].price
  }

  /** The units of price `p`, in their order in `s`. A sort is stable when it
      keeps this subsequence for every price. */
  function WithPrice(s: seq<Unit>, p: nat): (r: seq<Unit>)
    ensures |r| <= |s|
  {
    if s == [] then []
    else (if s[0].price == p then [s[0]] else []) + WithPrice(s[1..], p)
  }

  /** Places `x` just before the first unit cheaper than it, that is, after every
      unit priced at least as much: the insertion step of a stable descending sort. */
  function Insert(x: Unit, s: seq<Unit>): (r: seq<Unit>)
    ensures |r| == |s| + 1
  {
    if s == [] then [x]
    else if s[0].price >= x.price then [s[0]] + Insert(x, s[1..])
    else [x] + s
  }

  /** Insertion sort: each unit, taken in order, is inserted into the sorted prefix. */
  function InsSort(s: seq<Unit>): (r: seq<Unit>)
    ensures |r| == |s|
  {
    if s == [] then [] else Insert(s[|s| - 1], InsSort(s[..|s| - 1]))
  }

  // ---------------------------------------------------------------------
  // Properties of the specification

  lemma {:induction false} WithPriceMember(s: seq<Unit>, p: nat, u: Unit)
    ensures u in WithPrice(s, p) <==> u in s && u.price == p
  {
    if s != [] {
      WithPriceMember(s[1..], p, u);
      assert s == [s[0]] + s[1..];
    }
  }

  lemma {:induction false} WithPriceAppend(a: seq<Unit>, b: seq<Unit>, p: nat)
    ensures WithPrice(a + b, p) == WithPrice(a, p) + WithPrice(b, p)
  {
    if a == [] {
      assert a + b == b;
    } else {
      var head := if a[0].price == p then [a[0]] else [];
      assert (a + b)[0] == a[0] && (a + b)[1..] == a[1..] + b;
      assert WithPrice(a + b, p) == head + WithPrice(a[1..] + b, p);
      WithPriceAppend(a[1..], b, p);
      assert WithPrice(a, p) == head + WithPrice(a[1..], p);
    }
  }

  lemma {:induction false} InsertMultiset(x: Unit, s: seq<Unit>)
    ensures multiset(Insert(x, s)) == multiset(s) + multiset{x}
  {
    if s != [] && s[0].price >= x.price {
      assert Insert(x, s) == [s[0]] + Insert(x, s[1..]);
      InsertMultiset(x, s[1..]);
      assert s == [s[0]] + s[1..];
      assert multiset(s) == multiset{s[0]} + multiset(s[1..]);
    }
  }

  lemma {:induction false} InsertSorted(x: Unit, s: seq<Unit>)
    requires SortedDesc(s)
    ensures SortedDesc(Insert(x, s))
    ensures Insert(x, s) != [] && Insert(x, s)[0] == (if s != [] && s[0].price >= x.price then s[0] else x)
  {
    if s != [] && s[0].price >= x.price {
      var t := Insert(x, s[1..]);
      InsertSorted(x, s[1..]);
      assert Insert(x, s) == [s[0]] + t;
      if |s| > 1 {
        assert s[1..][0] == s[1];
      }
      assert s[0].price >= t[0].price;
      forall i, j | 0 <= i < j < |t| + 1 ensures ([s[0]] + t)[i].price >= ([s[0]] + t)[j].price {
        if i == 0 {
          assert t[0].price >= t[j - 1].price;
        } else {
          assert ([s[0]] + t)[i] == t[i - 1] && ([s[0]] + t)[j] == t[j - 1];
        }
      }
    }
  }

  /** Inserting into a sorted sequence puts `x` behind every unit of its own price. */
  lemma {:induction false} InsertWithPrice(x: Unit, s: seq<Unit>, p: nat)
    requires SortedDesc(s)
    ensures WithPrice(Insert(x, s), p) == WithPrice(s, p) + (if x.price == p then [x] else [])
  {
    if s == [] {
      assert Insert(x, s) == [x] && [x][1..] == [];
    } else if s[0].price >= x.price {
      InsertWithPrice(x, s[1..], p);
      assert Insert(x, s) == [s[0]] + Insert(x, s[1..]);
      assert Insert(x, s)[0] == s[0] && Insert(x, s)[1..] == Insert(x, s[1..]);
    } else {
      InsertFrontWithPrice(x, s, p);
    }
  }

  /** `x` dearer than every unit of `s`: placing it first changes nothing for
      any price, since no unit of `s` has `x`'s price. */
  lemma InsertFrontWithPrice(x: Unit, s: seq<Unit>, p: nat)
    requires SortedDesc(s) && s != [] && s[0].price < x.price
    ensures WithPrice(Insert(x, s), p) == WithPrice(s, p) + (if x.price == p then [x] else [])
  {
    assert Insert(x, s) == [x] + s;
    assert ([x] + s)[0] == x && ([x] + s)[1..] == s;
    assert WithPrice([x] + s, p) == (if x.price == p then [x] else []) + WithPrice(s, p);
    if x.price == p {
      forall u | u in s ensures u.price < p {
        var k :| 0 <= k < |s| && s[k] == u;
        assert s[0].price >= s[k].price;
      }
      WithPriceNone(s, p);
    }
  }

  /** The specification sorts: its result is in descending price order and is
      a permutation of its input. */
  lemma InsSortCorrect(s: seq<Unit>)
    ensures SortedDesc(InsSort(s))
    ensures multiset(InsSort(s)) == multiset(s)
  {
    InsSortSorted(s);
    InsSortPermutes(s);
  }

  lemma {:induction false} InsSortSorted(s: seq<Unit>)
    ensures SortedDesc(InsSort(s))
  {
    if s != [] {
      var init, last := s[..|s| - 1], s[|s| - 1];
      assert InsSort(s) == Insert(last, InsSort(init));
      InsSortSorted(init);
      InsertSorted(last, InsSort(init));
    }
  }

  lemma {:induction false} InsSortPermutes(s: seq<Unit>)
    ensures multiset(InsSort(s)) == multiset(s)
  {
    if s != [] {
      var init, last := s[..|s| - 1], s[|s| - 1];
      assert InsSort(s) == Insert(last, InsSort(init));
      InsSortPermutes(init);
      InsertMultiset(last, InsSort(init));
      assert s == init + [last];
      assert multiset(s) == multiset(init) + multiset{last};
    }
  }

  /** The specification is stable: for every price, the units of that price
      appear in the output in the order they had in the input. */
  lemma {:induction false} InsSortStable(s: seq<Unit>, p: nat)
    ensures WithPrice(InsSort(s), p) == WithPrice(s, p)
  {
    if s != [] {
      var init, last := s[..|s| - 1], s[|s| - 1];
      assert InsSort(s) == Insert(last, InsSort(init));
      InsSortStable(init, p);
      InsSortCorrect(init);
      InsertWithPrice(last, InsSort(init), p);
      assert s == init + [last];
      WithPriceAppend(init, [last], p);
      assert [last][1..] == [];
      assert WithPrice([last], p) == if last.price == p then [last] else [];
    }
  }

  lemma {:induction false} WithPriceNone(s: seq<Unit>, p: nat)
    requires forall u :: u in s ==> u.price < p
    ensures WithPrice(s, p) == []
  {
    if s != [] {
      assert s[0] in s;
      WithPriceNone(s[1..], p);
    }
  }

  lemma HeadHasOwnPrice(s: seq<Unit>)
    ensures s != [] ==> WithPrice(s, s[0].price) != []
  {
  }

  /** Two descending sequences that agree, price by price, on their units in
      order are equal. */
  lemma {:induction false} SortedAgreeEqual(t1: seq<Unit>, t2: seq<Unit>)
    requires SortedDesc(t1) && SortedDesc(t2)
    requires forall p: nat :: WithPrice(t1, p) == WithPrice(t2, p)
    ensures t1 == t2
  {
    if t1 == [] || t2 == [] {
      if t1 != [] || t2 != [] {
        HeadHasOwnPrice(t1);
        HeadHasOwnPrice(t2);
        assert false;
      }
    } else {
      var p1, p2 := t1[0].price, t2[0].price;
      if p1 > p2 {
        assert forall u :: u in t2 ==> u.price < p1;
        WithPriceNone(t2, p1);
      } else if p2 > p1 {
        assert forall u :: u in t1 ==> u.price < p2;
        WithPriceNone(t1, p2);
      } else {
        TailsAgree(t1, t2);
        SortedAgreeEqual(t1[1..], t2[1..]);
        assert t1 == [t1[0]] + t1[1..] && t2 == [t2[0]] + t2[1..];
      }
    }
  }

  /** Two sequences that start with units of one price and agree price by price
      also agree price by price once those first units are dropped, and the
      first units are the same. */
  lemma TailsAgree(t1: seq<Unit>, t2: seq<Unit>)
    requires t1 != [] && t2 != [] && t1[0].price == t2[0].price
    requires forall p: nat :: WithPrice(t1, p) == WithPrice(t2, p)
    ensures t1[0] == t2[0]
    ensures forall p: nat :: WithPrice(t1[1..], p) == WithPrice(t2[1..], p)
  {
    var p1 := t1[0].price;
    assert WithPrice(t1, p1) == [t1[0]] + WithPrice(t1[1..], p1);
    assert WithPrice(t2, p1) == [t2[0]] + WithPrice(t2[1..], p1);
    assert WithPrice(t1, p1)[0] == t1[0] && WithPrice(t2, p1)[0] == t2[0];
    forall p: nat ensures WithPrice(t1[1..], p) == WithPrice(t2[1..], p) {
      assert WithPrice(t1, p) == WithPrice(t2, p);
      if p != p1 {
        assert WithPrice(t1, p) == WithPrice(t1[1..], p);
        assert WithPrice(t2, p) == WithPrice(t2[1..], p);
      } else {
        assert WithPrice(t1, p1) == [t1[0]] + WithPrice(t1[1..], p1);
        assert WithPrice(t2, p1) == [t2[0]] + WithPrice(t2[1..], p1);
        assert ([t1[0]] + WithPrice(t1[1..], p1))[1..] == WithPrice(t1[1..], p1);
        assert ([t2[0]] + WithPrice(t2[1..], p1))[1..] == WithPrice(t2[1..], p1);
      }
    }
  }

  /** Any stable descending sort of `s` is `InsSort(s)`: the order of the
      sorted units is fully determined by the prices and by stability. */
  lemma SortedUnique(s: seq<Unit>, t: seq<Unit>)
    requires SortedDesc(t)
    requires forall p: nat :: WithPrice(t, p) == WithPrice(s, p)
    ensures t == InsSort(s)
  {
    InsSortCorrect(s);
    forall p: nat ensures WithPrice(t, p) == WithPrice(InsSort(s), p) {
      InsSortStable(s, p);
    }
    SortedAgreeEqual(t, InsSort(s));
  }

  /** Inserting behind a descending prefix whose cheaper tail starts at `k`. */
  lemma {:induction false} InsertAt(x: Unit, s: seq<Unit>, k: nat)
    requires k <= |s|
    requires forall i :: 0 <= i < k ==> s[i].price >= x.price
    requires forall i :: k <= i < |s| ==> s[i].price < x.price
    ensures Insert(x, s) == s[..k] + [x] + s[k..]
  {
    if k == 0 {
      if s != [] {
        assert s[0].price < x.price;
      }
    } else {
      InsertAt(x, s[1..], k - 1);
      assert s[1..][..k - 1] == s[1..k];
      assert s[1..][k - 1..] == s[k..];
      assert s[..k] == [s[0]] + s[1..k];
    }
  }

  // ---------------------------------------------------------------------
  // The in-place sort

  /** Insertion sort of the array by descending price, in place. */
  method SortByPriceDescending(a: array<Unit>)
    modifies a
    ensures a[..] == InsSort(old(a[..]))
  {
    ghost var input := a[..];
    var i := 0;
    while i < a.Length
      invariant 0 <= i <= a.Length
      invariant a[..i] == InsSort(input[..i])
      invariant a[i..] == input[i..]
    {
      InsSortCorrect(input[..i]);
      MoveIntoPlace(a, i);
      assert input[..i + 1] == input[..i] + [input[i]];
      assert input[..i + 1][..i] == input[..i];
      i := i + 1;
    }
    assert a[..] == a[..a.Length] && input == input[..a.Length];
  }

  /** One insertion step: `a[i]` moves left past the cheaper units of the sorted
      prefix `a[..i]`, never past one of equal or higher price. */
  method MoveIntoPlace(a: array<Unit>, i: nat)
    requires i < a.Length
    requires SortedDesc(a[..i])
    modifies a
    ensures a[..i + 1] == Insert(old(a[i]), old(a[..i]))
    ensures a[i + 1..] == old(a[i + 1..])
  {
    ghost var prefix := a[..i];
    var key := a[i];
    var j := i;
    while j > 0 && a[j - 1].price < key.price
      invariant 0 <= j <= i
      invariant forall k :: 0 <= k < j ==> a[k] == prefix[k]
      invariant forall k :: j < k <= i ==> a[k] == prefix[k - 1]
      invariant forall k :: j <= k < i ==> prefix[k].price < key.price
      invariant a[i + 1..] == old(a[i + 1..])
    {
      a[j] := a[j - 1];
      j := j - 1;
    }
    a[j] := key;
    ShiftedIsInsert(prefix, key, j, a[..i + 1]);
  }

  /** The array prefix after a shift: `key` at `j`, the units before it in place
      and the cheaper units after it moved one step right. */
  lemma ShiftedIsInsert(prefix: seq<Unit>, key: Unit, j: nat, b: seq<Unit>)
    requires SortedDesc(prefix)
    requires j <= |prefix| && |b| == |prefix| + 1
    requires forall k :: 0 <= k < j ==> b[k] == prefix[k]
    requires b[j] == key
    requires forall k :: j < k < |b| ==> b[k] == prefix[k - 1]
    requires forall k :: j <= k < |prefix| ==> prefix[k].price < key.price
    requires j > 0 ==> prefix[j - 1].price >= key.price
    ensures b == Insert(key, prefix)
  {
    forall k | 0 <= k < j ensures prefix[k].price >= key.price {
      assert prefix[k].price >= prefix[j - 1].price;
    }
    InsertAt(key, prefix, j);
    assert b == prefix[..j] + [key] + prefix[j..];
  }

  // ---------------------------------------------------------------------
  // Selection

  /** The first `n` units of the stable descending order: the discounted set.
      `SelectCorrect` states which units they are. */
  function Select(units: seq<Unit>, n: nat): (r: seq<Unit>)
    requires n <= |units|
    ensures |r| == n
  {
    InsSort(units)[..n]
  }

  /** The units left out of the discounted set. */
  function Unselected(units: seq<Unit>, n: nat): (r: seq<Unit>)
    requires n <= |units|
    ensures |r| == |units| - n
  {
    InsSort(units)[n..]
  }

  /** Every discounted unit is one of the units. */
  lemma SelectFrom(units: seq<Unit>, n: nat, u: Unit)
    requires n <= |units|
    requires u in Select(units, n)
    ensures u in units
  {
    InsSortCorrect(units);
    assert u in InsSort(units);
    assert u in multiset(InsSort(units));
  }

  /** The discounted set holds `n` units in descending price order; together with
      the unselected units it is exactly the expansion; no unselected unit is
      dearer than a selected one; and among units of one price, the ones taken
      are the earliest in expansion order. */
  lemma SelectCorrect(units: seq<Unit>, n: nat)
    requires n <= |units|
    ensures SortedDesc(Select(units, n))
    ensures multiset(Select(units, n)) + multiset(Unselected(units, n)) == multiset(units)
    ensures multiset(Select(units, n)) <= multiset(units)
    ensures forall i, j :: 0 <= i < n <= j < |units| ==> InsSort(units)[i].price >= InsSort(units)[j].price
    ensures forall p: nat :: WithPrice(Select(units, n), p) <= WithPrice(units, p)
  {
    SelectSorted(units, n);
    SelectPartitions(units, n);
    forall p: nat ensures WithPrice(Select(units, n), p) <= WithPrice(units, p) {
      SelectStable(units, n, p);
    }
  }

  lemma SelectSorted(units: seq<Unit>, n: nat)
    requires n <= |units|
    ensures SortedDesc(Select(units, n))
    ensures forall i, j :: 0 <= i < n <= j < |units| ==> InsSort(units)[i].price >= InsSort(units)[j].price
  {
    InsSortSorted(units);
    var sorted := InsSort(units);
    forall i, j | 0 <= i < j < n ensures Select(units, n)[i].price >= Select(units, n)[j].price {
      assert Select(units, n)[i] == sorted[i] && Select(units, n)[j] == sorted[j];
    }
  }

  lemma SelectPartitions(units: seq<Unit>, n: nat)
    requires n <= |units|
    ensures multiset(Select(units, n)) + multiset(Unselected(units, n)) == multiset(units)
    ensures multiset(Select(units, n)) <= multiset(units)
  {
    InsSortPermutes(units);
    var sorted := InsSort(units);
    assert sorted == Select(units, n) + Unselected(units, n);
    assert multiset(sorted) == multiset(Select(units, n)) + multiset(Unselected(units, n));
  }

  lemma SelectStable(units: seq<Unit>, n: nat, p: nat)
    requires n <= |units|
    ensures WithPrice(Select(units, n), p) <= WithPrice(units, p)
  {
    var sorted := InsSort(units);
    assert sorted == Select(units, n) + Unselected(units, n);
    WithPriceAppend(Select(units, n), Unselected(units, n), p);
    InsSortStable(units, p);
  }
}
