/** Sequence and option vocabulary shared by every other module. */
module Common {

  datatype Option<+T> = None | Some(value: T)

  /** The concatenation of a sequence of sequences. */
  function Flatten<T>(parts: seq<seq<T>>): (whole: seq<T>)
  {
    if parts == [] then [] else parts[0] + Flatten(parts[1..])
  }

  lemma FlattenCons<T>(first: seq<T>, rest: seq<seq<T>>)
    ensures Flatten([first] + rest) == first + Flatten(rest)
  {
    assert ([first] + rest)[1..] == rest;
  }

  lemma {:induction false} FlattenAppend<T>(a: seq<seq<T>>, b: seq<seq<T>>)
    ensures Flatten(a + b) == Flatten(a) + Flatten(b)
  {
    if a == [] {
      assert a + b == b;
    } else {
      assert (a + b)[1..] == a[1..] + b;
      FlattenAppend(a[1..], b);
    }
  }

  lemma Reassociate<T>(a: seq<T>, b: seq<T>, c: seq<T>)
    ensures (a + b) + c == a + (b + c)
  {
  }

  /** The index of the part that holds position `k` of the concatenation. */
  function PartOf<T>(parts: seq<seq<T>>, k: nat): (i: nat)
    requires k < |Flatten(parts)|
    ensures i < |parts| && Flatten(parts)[k] in parts[i]
  {
    if k < |parts[0]| then
      assert Flatten(parts)[k] == parts[0][k];
      0
    else
      assert Flatten(parts)[k] == Flatten(parts[1..])[k - |parts[0]|];
      1 + PartOf(parts[1..], k - |parts[0]|)
  }

  /** Positions of a concatenation never go back to an earlier part. */
  lemma {:induction false} PartOfMonotone<T>(parts: seq<seq<T>>, j: nat, k: nat)
    requires j <= k < |Flatten(parts)|
    ensures PartOf(parts, j) <= PartOf(parts, k)
  {
    if |parts[0]| <= j {
      PartOfMonotone(parts[1..], j - |parts[0]|, k - |parts[0]|);
    }
  }

  /** `order` lists every element of `s` exactly once. */
  ghost predicate Enumerates<T>(order: seq<T>, s: set<T>)
  {
    multiset(order) == multiset(s)
  }

  /** Some listing of any finite set exists. */
  lemma {:induction false} EnumerationExists<T>(s: set<T>) returns (order: seq<T>)
    ensures Enumerates(order, s)
  {
    if s == {} {
      order := [];
    } else {
      var x :| x in s;
      var rest := EnumerationExists(s - {x});
      order := rest + [x];
      assert s == (s - {x}) + {x};
      assert multiset(s) == multiset(s - {x}) + multiset{x};
    }
  }

  // ----- Concatenations over an order -----------------------------------------------------------

  /** The concatenation of what `f` yields along an order. */
  function Gather<K, T>(f: K -> seq<T>, order: seq<K>): seq<T>
    decreases |order|
  {
    if |order| == 0 then [] else f(order[0]) + Gather(f, order[1..])
  }

  lemma {:induction false} GatherAppend<K, T>(f: K -> seq<T>, a: seq<K>, b: seq<K>)
    ensures Gather(f, a + b) == Gather(f, a) + Gather(f, b)
    decreases |a|
  {
    if a == [] {
      assert a + b == b;
    } else {
      assert (a + b)[1..] == a[1..] + b;
      GatherAppend(f, a[1..], b);
    }
  }

  /** Any occurrence can be taken out of an order. */
  lemma TakeOut<K>(order: seq<K>, x: K) returns (front: seq<K>, back: seq<K>)
    requires x in multiset(order)
    ensures order == front + [x] + back
    ensures multiset(front + back) == multiset(order) - multiset{x}
  {
    var i :| 0 <= i < |order| && order[i] == x;
    front, back := order[..i], order[i + 1..];
    assert order == front + [x] + back;
    assert multiset(front + [x] + back) == multiset(front) + multiset{x} + multiset(back);
  }

  lemma GatherAround<K, T>(f: K -> seq<T>, front: seq<K>, x: K, back: seq<K>)
    ensures Gather(f, front + [x] + back) == Gather(f, front) + f(x) + Gather(f, back)
  {
    GatherAppend(f, front + [x], back);
    GatherAppend(f, front, [x]);
    assert Gather(f, [x]) == f(x);
  }

  /** Reordering keeps what is gathered, up to order. */
  lemma {:induction false} GatherPermutation<K, T>(f: K -> seq<T>, a: seq<K>, b: seq<K>)
    requires multiset(a) == multiset(b)
    ensures multiset(Gather(f, a)) == multiset(Gather(f, b))
    decreases |a|
  {
    if a == [] {
      assert |multiset(b)| == 0;
    } else {
      var x, rest := a[0], a[1..];
      assert a == [x] + rest;
      var front, back := TakeOut(b, x);
      assert multiset(rest) == multiset(a) - multiset{x};
      GatherPermutation(f, rest, front + back);
      GatherAppend(f, front, back);
      GatherAround(f, front, x, back);
    }
  }

  /** No two members of `s` yield sequences whose order matters. */
  ghost predicate Commute<K, T>(f: K -> seq<T>, s: set<K>)
  {
    forall p, q :: p in s && q in s ==> f(p) + f(q) == f(q) + f(p)
  }

  /** What is gathered over `s` is the same whatever the order. */
  ghost predicate OrderFree<K(!new), T>(f: K -> seq<T>, s: set<K>)
  {
    forall a, b :: Enumerates(a, s) && Enumerates(b, s) ==> Gather(f, a) == Gather(f, b)
  }

  lemma {:induction false} MoveToFront<K, T>(f: K -> seq<T>, s: set<K>, front: seq<K>, x: K)
    requires Commute(f, s) && x in s && forall p <- front :: p in s
    ensures Gather(f, front) + f(x) == f(x) + Gather(f, front)
    decreases |front|
  {
    if front != [] {
      var head, tail := f(front[0]), Gather(f, front[1..]);
      MoveToFront(f, s, front[1..], x);
      assert (head + tail) + f(x) == head + (tail + f(x)) == head + (f(x) + tail) == (head + f(x)) + tail;
      assert head + f(x) == f(x) + head;
      assert (f(x) + head) + tail == f(x) + (head + tail);
    }
  }

  lemma MovedToFront<K, T>(f: K -> seq<T>, s: set<K>, front: seq<K>, x: K, back: seq<K>)
    requires Commute(f, s) && x in s && forall p <- front :: p in s
    ensures Gather(f, front + [x] + back) == f(x) + Gather(f, front + back)
  {
    GatherAround(f, front, x, back);
    GatherAppend(f, front, back);
    MoveToFront(f, s, front, x);
    assert (f(x) + Gather(f, front)) + Gather(f, back) == f(x) + (Gather(f, front) + Gather(f, back));
  }

  lemma {:induction false} CommutingOrders<K, T>(f: K -> seq<T>, s: set<K>, a: seq<K>, b: seq<K>)
    requires Commute(f, s) && multiset(a) == multiset(b) && forall p <- a :: p in s
    ensures Gather(f, a) == Gather(f, b)
    decreases |a|
  {
    if a == [] {
      assert |multiset(b)| == 0;
    } else {
      var x, rest := a[0], a[1..];
      assert a == [x] + rest;
      var front, back := TakeOut(b, x);
      assert multiset(rest) == multiset(a) - multiset{x};
      assert forall p <- front :: p in multiset(front + [x] + back) && p in multiset(a);
      CommutingOrders(f, s, rest, front + back);
      MovedToFront(f, s, front, x, back);
    }
  }

  lemma PairFirst<K>(s: set<K>, p: K, q: K, rest: seq<K>)
    requires p in s && q in s && p != q && Enumerates(rest, s - {p, q})
    ensures Enumerates([p, q] + rest, s)
  {
    assert multiset(s) == multiset(s - {p, q}) + multiset{p, q};
    assert multiset([p, q]) == multiset{p, q};
  }

  lemma OrderFreeCommutes<K(!new), T>(f: K -> seq<T>, s: set<K>, p: K, q: K)
    requires OrderFree(f, s) && p in s && q in s
    ensures f(p) + f(q) == f(q) + f(p)
  {
    if p != q {
      var rest := EnumerationExists(s - {p, q});
      assert s - {q, p} == s - {p, q};
      PairFirst(s, p, q, rest);
      PairFirst(s, q, p, rest);
      assert Gather(f, [p, q] + rest) == Gather(f, [q, p] + rest);
      GatherPair(f, p, q, rest);
      GatherPair(f, q, p, rest);
      hide Enumerates, Gather, OrderFree;
      CancelTail(f(p) + f(q), f(q) + f(p), Gather(f, rest));
    }
  }

  lemma GatherPair<K, T>(f: K -> seq<T>, p: K, q: K, rest: seq<K>)
    ensures Gather(f, [p, q] + rest) == (f(p) + f(q)) + Gather(f, rest)
  {
    GatherAppend(f, [p, q], rest);
    assert [p, q][1..] == [q];
    assert Gather(f, [q]) == f(q);
  }

  lemma CancelTail<T>(a: seq<T>, b: seq<T>, tail: seq<T>)
    requires a + tail == b + tail
    ensures a == b
  {
    assert |a| == |b|;
    assert a == (a + tail)[..|a|];
    assert b == (b + tail)[..|b|];
  }

  /** Every order gathers the same sequence exactly when the members commute pairwise. */
  lemma OrderFreeIffCommute<K(!new), T>(f: K -> seq<T>, s: set<K>)
    ensures OrderFree(f, s) <==> Commute(f, s)
  {
    if Commute(f, s) {
      forall a, b | Enumerates(a, s) && Enumerates(b, s)
        ensures Gather(f, a) == Gather(f, b)
      {
        assert forall p <- a :: p in multiset(a);
        CommutingOrders(f, s, a, b);
      }
    }
    if OrderFree(f, s) {
      forall p, q | p in s && q in s
        ensures f(p) + f(q) == f(q) + f(p)
      {
        OrderFreeCommutes(f, s, p, q);
      }
    }
  }

  /** At most one member of `s` yields anything. */
  ghost predicate AtMostOneYields<K, T>(f: K -> seq<T>, s: set<K>)
  {
    forall p, q :: p in s && q in s && p != q ==> f(p) == [] || f(q) == []
  }

  lemma AtMostOneCommutes<K, T>(f: K -> seq<T>, s: set<K>)
    requires AtMostOneYields(f, s)
    ensures Commute(f, s)
  {
    forall p, q | p in s && q in s
      ensures f(p) + f(q) == f(q) + f(p)
    {
      assert f(p) + [] == [] + f(p) && f(q) + [] == [] + f(q);
    }
  }

  /** Members that yield one element each commute only if it is the same. */
  lemma PairsDoNotCommute<K, T>(f: K -> seq<T>, s: set<K>, p: K, q: K, x: T, y: T)
    requires p in s && q in s && f(p) == [x] && f(q) == [y] && x != y
    ensures !Commute(f, s)
  {
    assert (f(p) + f(q))[0] == x && (f(q) + f(p))[0] == y;
  }

  // ----- Sums ------------------------------------------------------------------------------------

  ghost function Sum<K>(f: K -> nat, s: set<K>): nat
  {
    if s == {} then 0
    else
      var x :| x in s;
      f(x) + Sum(f, s - {x})
  }

  /** The summands may be taken in any order. */
  lemma {:induction false} SumTakeOut<K>(f: K -> nat, s: set<K>, x: K)
    requires x in s
    ensures Sum(f, s) == f(x) + Sum(f, s - {x})
  {
    var y :| y in s && Sum(f, s) == f(y) + Sum(f, s - {y});
    if x != y {
      SumTakeOut(f, s - {y}, x);
      SumTakeOut(f, s - {x}, y);
      assert s - {x} - {y} == s - {y} - {x};
    }
  }

  lemma {:induction false} SumSame<K>(f: K -> nat, g: K -> nat, s: set<K>)
    requires forall x :: x in s ==> f(x) == g(x)
    ensures Sum(f, s) == Sum(g, s)
  {
    if s != {} {
      var x :| x in s;
      SumTakeOut(f, s, x);
      SumTakeOut(g, s, x);
      SumSame(f, g, s - {x});
    }
  }
}
