/** Sequences of distinct elements, as process queues are, and taking a set of elements out of one. */
module Seqs {

  ghost predicate Distinct<T>(q: seq<T>) {
    forall i, j | 0 <= i < j < |q| :: q[i] != q[j]
  }

  function Last<T>(q: seq<T>): T
    requires q != []
  {
    q[|q| - 1]
  }

  function Head<T>(q: seq<T>): (d: set<T>)
    ensures q != [] ==> d == {q[0]} && q[0] in q
  {
    if q == [] then {} else {q[0]}
  }

  function Elements<T>(q: seq<T>): (d: set<T>)
    ensures forall x | x in q :: x in d
    ensures forall x | x in d :: x in q
  {
    set x | x in q
  }

  /** q without the elements of d, in the order of q. */
  function Minus<T>(q: seq<T>, d: set<T>): (r: seq<T>)
    ensures |r| <= |q|
    ensures forall x | x in r :: x in q && x !in d
    ensures forall x | x in q :: x in d || x in r
  {
    if q == [] then []
    else
      var r := Minus(q[..|q| - 1], d);
      assert q == q[..|q| - 1] + [Last(q)];
      if Last(q) in d then r else r + [Last(q)]
  }

  function Reverse<T>(q: seq<T>): (r: seq<T>)
    ensures |r| == |q|
    ensures forall i | 0 <= i < |q| :: r[i] == q[|q| - 1 - i]
  {
    if q == [] then [] else Reverse(q[1..]) + [q[0]]
  }

  lemma DistinctAppend<T>(q: seq<T>, r: seq<T>)
    requires Distinct(q) && Distinct(r)
    requires forall x | x in q :: x !in r
    ensures Distinct(q + r)
  {
    forall i, j | 0 <= i < j < |q + r| ensures (q + r)[i] != (q + r)[j] {
      if i < |q| <= j {
        assert q[i] in q && r[j - |q|] in r;
      }
    }
  }

  lemma ReverseDistinct<T>(q: seq<T>)
    requires Distinct(q)
    ensures Distinct(Reverse(q))
  {
  }

  lemma {:induction false} ReverseSnoc<T>(q: seq<T>, x: T)
    ensures Reverse(q + [x]) == [x] + Reverse(q)
  {
    if q != [] {
      assert (q + [x])[1..] == q[1..] + [x];
      ReverseSnoc(q[1..], x);
    }
  }

  lemma ReverseMembers<T>(q: seq<T>)
    ensures forall x | x in Reverse(q) :: x in q
  {
  }

  lemma {:induction false} MinusDistinct<T>(q: seq<T>, d: set<T>)
    requires Distinct(q)
    ensures Distinct(Minus(q, d))
  {
    if q != [] {
      MinusDistinct(q[..|q| - 1], d);
    }
  }

  lemma {:induction false} MinusNone<T>(q: seq<T>, d: set<T>)
    requires forall x | x in q :: x !in d
    ensures Minus(q, d) == q
  {
    if q != [] {
      MinusNone(q[..|q| - 1], d);
    }
  }

  lemma {:induction false} MinusMinus<T>(q: seq<T>, d: set<T>, e: set<T>)
    ensures Minus(Minus(q, d), e) == Minus(q, d + e)
  {
    if q != [] {
      var r := Minus(q[..|q| - 1], d);
      MinusMinus(q[..|q| - 1], d, e);
      assert (r + [Last(q)])[..|r|] == r;
    }
  }

  lemma {:induction false} MinusAppend<T>(q: seq<T>, r: seq<T>, d: set<T>)
    ensures Minus(q + r, d) == Minus(q, d) + Minus(r, d)
  {
    if r == [] {
      assert q + r == q;
    } else {
      var n := |r| - 1;
      assert (q + r)[..|q + r| - 1] == q + r[..n];
      MinusAppend(q, r[..n], d);
    }
  }

  /** Taking one element out of a queue closes the gap it leaves and moves nothing else. */
  lemma {:induction false} MinusAt<T>(q: seq<T>, i: nat)
    requires Distinct(q) && i < |q|
    ensures Minus(q, {q[i]}) == q[..i] + q[i + 1..]
  {
    assert q == q[..i] + [q[i]] + q[i + 1..];
    MinusAppend(q[..i] + [q[i]], q[i + 1..], {q[i]});
    MinusAppend(q[..i], [q[i]], {q[i]});
    MinusNone(q[..i], {q[i]});
    MinusNone(q[i + 1..], {q[i]});
    assert [q[i]][..0] == [];
  }

  /** A survivor never moves towards the tail. */
  lemma {:induction false} MinusIndex<T>(q: seq<T>, d: set<T>, k: nat) returns (k': nat)
    requires k < |q| && q[k] !in d
    ensures k' < |Minus(q, d)| && Minus(q, d)[k'] == q[k] && k' <= k
  {
    if k == |q| - 1 {
      k' := |Minus(q[..k], d)|;
    } else {
      k' := MinusIndex(q[..|q| - 1], d, k);
    }
  }

  /** What is taken out and what is left add up, for distinct elements. */
  lemma {:induction false} MinusLength<T>(q: seq<T>, d: set<T>)
    requires Distinct(q)
    ensures |Minus(q, d)| == |q| - |Elements(q) * d|
  {
    if q == [] {
      assert Elements(q) * d == {};
    } else {
      MinusLength(q[..|q| - 1], d);
      ElementsSnoc(q, d);
    }
  }

  lemma MinusOne<T>(q: seq<T>, x: T)
    requires Distinct(q) && x in q
    ensures |Minus(q, {x})| == |q| - 1
  {
    MinusLength(q, {x});
    assert Elements(q) * {x} == {x};
  }

  lemma ElementsSnoc<T>(q: seq<T>, d: set<T>)
    requires Distinct(q) && q != []
    ensures Last(q) !in Elements(q[..|q| - 1])
    ensures Elements(q) == Elements(q[..|q| - 1]) + {Last(q)}
    ensures |Elements(q) * d| == |Elements(q[..|q| - 1]) * d| + if Last(q) in d then 1 else 0
  {
    assert q == q[..|q| - 1] + [Last(q)];
    var p, x := Elements(q[..|q| - 1]), Last(q);
    assert Elements(q) == p + {x};
    if x in d {
      assert (p + {x}) * d == p * d + {x};
    } else {
      assert (p + {x}) * d == p * d;
    }
  }

  lemma {:induction false} DistinctCardinality<T>(q: seq<T>)
    requires Distinct(q)
    ensures |Elements(q)| == |q|
  {
    if q != [] {
      DistinctCardinality(q[..|q| - 1]);
      ElementsSnoc(q, Elements(q));
    }
  }

  /** An injective image argument: a set covered by the image of another is no larger. */
  lemma {:induction false} CoverCardinality<A, B>(xs: set<A>, ys: set<B>, f: map<A, B>)
    requires xs <= f.Keys
    requires forall y | y in ys :: exists x | x in xs :: f[x] == y
    ensures |ys| <= |xs|
    decreases |ys|
  {
    if ys != {} {
      var y :| y in ys;
      var x :| x in xs && f[x] == y;
      forall y' | y' in ys - {y} ensures exists x' | x' in xs - {x} :: f[x'] == y' {
        var x' :| x' in xs && f[x'] == y';
        assert x' in xs - {x};
      }
      CoverCardinality(xs - {x}, ys - {y}, f);
    }
  }

  lemma SubsetCardinality<T>(a: set<T>, b: set<T>)
    requires a <= b
    ensures |a| <= |b|
    ensures |a| == |b| ==> a == b
  {
    assert b == a + (b - a);
    assert |b| == |a| + |b - a|;
  }
}
