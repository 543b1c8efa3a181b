/**
 The process tree as a value: every live process with its children, first child first, and its
 parent. `birth` orders processes by creation; a parent is always older than its children, which
 is what makes the tree acyclic and the recursive kill terminate.
 */
module Family {
  import opened Pcbs
  import opened Seqs

  datatype Tree = Tree(
    kids: map<Pcb, seq<Pcb>>,
    parent: map<Pcb, Pcb?>,
    birth: map<Pcb, nat>,
    now: nat)

  ghost predicate Dated(t: Tree) {
    && t.parent.Keys == t.kids.Keys
    && t.birth.Keys == t.kids.Keys
    && (forall p | p in t.kids :: t.birth[p] < t.now && Distinct(t.kids[p]))
  }

  /** Children know their parent and are younger. */
  ghost predicate Downward(t: Tree)
    requires Dated(t)
  {
    forall p, c | p in t.kids && c in t.kids[p] ::
      c in t.kids && t.parent[c] == p && t.birth[p] < t.birth[c]
  }

  /** A process is on its parent's list of children. */
  ghost predicate Upward(t: Tree)
    requires Dated(t)
  {
    forall c | c in t.kids && t.parent[c] != null ::
      t.parent[c] in t.kids && c in t.kids[t.parent[c]]
  }

  ghost predicate Forest(t: Tree) {
    Dated(t) && Downward(t) && Upward(t)
  }

  function Drop(t: Tree, d: set<Pcb>): Tree {
    Tree(t.kids - d, t.parent - d, t.birth - d, t.now)
  }

  /** A new process c becomes p's first child. */
  function Adopt(t: Tree, p: Pcb, c: Pcb): Tree
    requires p in t.kids
  {
    Tree(t.kids[p := [c] + t.kids[p]][c := []], t.parent[c := p], t.birth[c := t.now], t.now + 1)
  }

  /** p's first child leaves it. */
  function DropFirst(t: Tree, p: Pcb): Tree
    requires p in t.kids && t.kids[p] != []
  {
    t.(kids := t.kids[p := t.kids[p][1..]], parent := t.parent[t.kids[p][0] := null])
  }

  /** p leaves its parent, if it has one. */
  function Detach(t: Tree, p: Pcb): Tree
    requires p in t.parent && (t.parent[p] != null ==> t.parent[p] in t.kids)
  {
    var r := t.parent[p];
    if r == null then t
    else t.(kids := t.kids[r := Minus(t.kids[r], {p})], parent := t.parent[p := null])
  }

  /** q is p or one of its descendants: p is met on the way from q to its root. */
  ghost predicate Descends(t: Tree, p: Pcb, q: Pcb)
    requires Forest(t) && q in t.kids
    decreases t.birth[q]
  {
    q == p || (t.parent[q] != null && Descends(t, p, t.parent[q]))
  }

  /** p's subtree in the order in which killing p frees it: children first, oldest sibling last. */
  ghost function PostOrder(t: Tree, p: Pcb): (r: seq<Pcb>)
    requires Forest(t) && p in t.kids
    ensures forall q | q in r :: q in t.kids
    ensures r != [] && Last(r) == p
    decreases t.now - t.birth[p], |t.kids[p]| + 1
  {
    PostOrderAll(t, t.kids[p], t.birth[p]) + [p]
  }

  /** The subtrees of cs, all born after b, one after the other. */
  ghost function PostOrderAll(t: Tree, cs: seq<Pcb>, b: nat): (r: seq<Pcb>)
    requires Forest(t) && b < t.now
    requires forall c | c in cs :: c in t.kids && t.birth[c] > b
    ensures forall q | q in r :: q in t.kids
    decreases t.now - b, |cs|
  {
    if cs == [] then [] else PostOrder(t, cs[0]) + PostOrderAll(t, cs[1..], b)
  }

  lemma {:induction false} DescendsOlder(t: Tree, p: Pcb, q: Pcb)
    requires Forest(t) && p in t.kids && q in t.kids && Descends(t, p, q)
    ensures t.birth[p] <= t.birth[q]
    ensures p != q ==> t.birth[p] < t.birth[q]
    decreases t.birth[q]
  {
    if q != p {
      DescendsOlder(t, p, t.parent[q]);
    }
  }

  lemma {:induction false} DescendsLinear(t: Tree, a: Pcb, b: Pcb, q: Pcb)
    requires Forest(t) && a in t.kids && b in t.kids && q in t.kids
    requires Descends(t, a, q) && Descends(t, b, q)
    ensures Descends(t, a, b) || Descends(t, b, a)
    decreases t.birth[q]
  {
    if q != a && q != b {
      DescendsLinear(t, a, b, t.parent[q]);
    }
  }

  lemma {:induction false} DescendsTransitive(t: Tree, a: Pcb, b: Pcb, q: Pcb)
    requires Forest(t) && a in t.kids && b in t.kids && q in t.kids
    requires Descends(t, a, b) && Descends(t, b, q)
    ensures Descends(t, a, q)
    decreases t.birth[q]
  {
    if q != b {
      DescendsTransitive(t, a, b, t.parent[q]);
    }
  }

  /** Siblings do not descend from each other. */
  lemma NotUnderSibling(t: Tree, p: Pcb, c: Pcb, d: Pcb)
    requires Forest(t) && p in t.kids && c in t.kids[p] && d in t.kids[p] && c != d
    ensures c in t.kids && d in t.kids && !Descends(t, c, d)
  {
    assert t.parent[d] == p && t.birth[p] < t.birth[c];
    if Descends(t, c, p) {
      DescendsOlder(t, c, p);
    }
  }

  /** Siblings have no descendant in common. */
  lemma SiblingsApart(t: Tree, p: Pcb, c: Pcb, d: Pcb, q: Pcb)
    requires Forest(t) && p in t.kids && c in t.kids[p] && d in t.kids[p] && q in t.kids
    requires Descends(t, c, q) && Descends(t, d, q)
    ensures c == d
  {
    if c != d {
      NotUnderSibling(t, p, c, d);
      NotUnderSibling(t, p, d, c);
      hide Forest, Descends;
      DescendsLinear(t, c, d, q);
    }
  }

  /** The last step of a descent from p to another process goes through exactly one child of p. */
  lemma {:induction false} DescendsViaChild(t: Tree, p: Pcb, q: Pcb) returns (c: Pcb)
    requires Forest(t) && p in t.kids && q in t.kids && Descends(t, p, q) && q != p
    ensures c in t.kids[p] && Descends(t, c, q)
    decreases t.birth[q]
  {
    if t.parent[q] == p {
      c := q;
    } else {
      c := DescendsViaChild(t, p, t.parent[q]);
    }
  }

  /** The kill order of p is p's subtree, each member exactly once. */
  lemma {:induction false} PostOrderExact(t: Tree, p: Pcb)
    requires Forest(t) && p in t.kids
    ensures Distinct(PostOrder(t, p))
    ensures forall q | q in t.kids :: q in PostOrder(t, p) <==> Descends(t, p, q)
    decreases t.now - t.birth[p], |t.kids[p]| + 1
  {
    var below := PostOrderAll(t, t.kids[p], t.birth[p]);
    PostOrderAllExact(t, p, t.kids[p]);
    forall q | q in t.kids
      ensures q in PostOrder(t, p) <==> Descends(t, p, q)
      ensures q in below ==> q != p
    {
      BelowOrSelf(t, p, q);
    }
    DistinctAppend(below, [p]);
  }

  lemma BelowOrSelf(t: Tree, p: Pcb, q: Pcb)
    requires Forest(t) && p in t.kids && q in t.kids
    ensures Descends(t, p, q) <==> q == p || exists c | c in t.kids[p] :: Descends(t, c, q)
    ensures (exists c | c in t.kids[p] :: Descends(t, c, q)) ==> q != p
  {
    if Descends(t, p, q) && q != p {
      var c := DescendsViaChild(t, p, q);
    }
    forall c | c in t.kids[p] && Descends(t, c, q) ensures Descends(t, p, q) && q != p {
      DescendsTransitive(t, p, c, q);
      DescendsOlder(t, c, q);
    }
  }

  lemma {:induction false} PostOrderAllExact(t: Tree, p: Pcb, cs: seq<Pcb>)
    requires Forest(t) && p in t.kids && Distinct(cs)
    requires forall c | c in cs :: c in t.kids[p]
    ensures Distinct(PostOrderAll(t, cs, t.birth[p]))
    ensures forall q | q in t.kids ::
              q in PostOrderAll(t, cs, t.birth[p]) <==> exists c | c in cs :: Descends(t, c, q)
    decreases t.now - t.birth[p], |cs|
  {
    if cs != [] {
      PostOrderExact(t, cs[0]);
      PostOrderAllExact(t, p, cs[1..]);
      var first, rest := PostOrder(t, cs[0]), PostOrderAll(t, cs[1..], t.birth[p]);
      assert cs == [cs[0]] + cs[1..];
      forall q | q in t.kids
        ensures q in first ==> q !in rest
        ensures q in first + rest <==> exists c | c in cs :: Descends(t, c, q)
      {
        InFirstOrRest(t, p, cs, q);
      }
      DistinctAppend(first, rest);
    }
  }

  lemma InFirstOrRest(t: Tree, p: Pcb, cs: seq<Pcb>, q: Pcb)
    requires Forest(t) && p in t.kids && Distinct(cs) && cs != [] && q in t.kids
    requires forall c | c in cs :: c in t.kids[p]
    ensures Descends(t, cs[0], q) ==> !exists c | c in cs[1..] :: Descends(t, c, q)
    ensures (exists c | c in cs :: Descends(t, c, q)) <==>
            Descends(t, cs[0], q) || exists c | c in cs[1..] :: Descends(t, c, q)
  {
    if Descends(t, cs[0], q) {
      forall c | c in cs[1..] ensures !Descends(t, c, q) {
        if Descends(t, c, q) { SiblingsApart(t, p, cs[0], c, q); }
      }
    }
  }

  lemma AdoptDated(t: Tree, p: Pcb, c: Pcb)
    requires Forest(t) && p in t.kids && c !in t.kids
    ensures Dated(Adopt(t, p, c))
  {
    assert c !in t.kids[p];
    DistinctAppend([c], t.kids[p]);
  }

  lemma AdoptDownward(t: Tree, p: Pcb, c: Pcb, q: Pcb, d: Pcb)
    requires Dated(t) && Downward(t) && p in t.kids && c !in t.kids
    requires var u := Adopt(t, p, c); q in u.kids && d in u.kids[q]
    ensures var u := Adopt(t, p, c);
            d in u.kids && d in u.parent && u.parent[d] == q && q in u.birth && d in u.birth && u.birth[q] < u.birth[d]
  {
    assert q in t.kids;
    if d != c {
      assert d in t.kids[q] && Adopt(t, p, c).parent[d] == t.parent[d];
    }
  }

  lemma AdoptUpward(t: Tree, p: Pcb, c: Pcb, d: Pcb)
    requires Dated(t) && Upward(t) && p in t.kids && c !in t.kids
    requires var u := Adopt(t, p, c); d in u.kids && d in u.parent && u.parent[d] != null
    ensures var u := Adopt(t, p, c); u.parent[d] in u.kids && d in u.kids[u.parent[d]]
  {
    if d != c { assert d in t.kids[t.parent[d]]; }
  }

  lemma AdoptForest(t: Tree, p: Pcb, c: Pcb)
    requires Forest(t) && p in t.kids && c !in t.kids
    ensures Forest(Adopt(t, p, c))
  {
    hide Dated, Distinct, Descends, PostOrder, Adopt;
    AdoptDated(t, p, c);
    var u := Adopt(t, p, c);
    DatedKeys(u);
    forall q, d | q in u.kids && d in u.kids[q]
      ensures d in u.kids && u.parent[d] == q && u.birth[q] < u.birth[d]
    {
      AdoptDownward(t, p, c, q, d);
    }
    forall d | d in u.kids && u.parent[d] != null
      ensures u.parent[d] in u.kids && d in u.kids[u.parent[d]]
    {
      AdoptUpward(t, p, c, d);
    }
  }

  lemma DatedKeys(t: Tree)
    requires Dated(t)
    ensures t.parent.Keys == t.birth.Keys == t.kids.Keys
  {
  }

  lemma ParentLives(t: Tree, p: Pcb)
    requires Forest(t) && p in t.kids
    ensures p in t.parent && (t.parent[p] != null ==> t.parent[p] in t.kids)
  {
  }

  lemma DetachForest(t: Tree, p: Pcb)
    requires Forest(t) && p in t.kids
    ensures Forest(Detach(t, p)) && Detach(t, p).parent[p] == null
    ensures Detach(t, p).kids.Keys == t.kids.Keys && Detach(t, p).birth == t.birth && Detach(t, p).now == t.now
  {
    var r := t.parent[p];
    if r != null {
      MinusDistinct(t.kids[r], {p});
      DetachedForest(t, p, r, Minus(t.kids[r], {p}));
    }
  }

  /** t, with p no longer a child of r, whose children are cs now. */
  function Unparented(t: Tree, p: Pcb, r: Pcb, cs: seq<Pcb>): Tree {
    t.(kids := t.kids[r := cs], parent := t.parent[p := null])
  }

  lemma DetachedForest(t: Tree, p: Pcb, r: Pcb, cs: seq<Pcb>)
    requires Forest(t) && p in t.kids && t.parent[p] == r && r in t.kids && Distinct(cs)
    requires forall c | c in cs :: c in t.kids[r] && c != p
    requires forall c | c in t.kids[r] && c != p :: c in cs
    ensures Forest(Unparented(t, p, r, cs))
  {
    hide Dated, Distinct, Descends, PostOrder;
    DetachedDated(t, p, r, cs);
    var u := Unparented(t, p, r, cs);
    forall q, c | q in u.kids && c in u.kids[q]
      ensures c in u.kids && u.parent[c] == q && u.birth[q] < u.birth[c]
    {
      DetachedDownward(t, p, r, cs, q, c);
    }
    forall c | c in u.kids && u.parent[c] != null
      ensures u.parent[c] in u.kids && c in u.kids[u.parent[c]]
    {
      DetachedUpward(t, p, r, cs, c);
    }
  }

  lemma DetachedDated(t: Tree, p: Pcb, r: Pcb, cs: seq<Pcb>)
    requires Dated(t) && p in t.kids && r in t.kids && Distinct(cs)
    ensures t.parent.Keys == t.birth.Keys == t.kids.Keys
    ensures var u := Unparented(t, p, r, cs);
            Dated(u) && u.kids.Keys == u.parent.Keys == u.birth.Keys == t.kids.Keys
  {
    hide Distinct;
    var u := Unparented(t, p, r, cs);
    assert u.kids.Keys == t.kids.Keys && u.parent.Keys == t.parent.Keys;
  }

  lemma DetachedDownward(t: Tree, p: Pcb, r: Pcb, cs: seq<Pcb>, q: Pcb, c: Pcb)
    requires Dated(t) && Downward(t) && p in t.kids && r in t.kids
    requires forall c | c in cs :: c in t.kids[r] && c != p
    requires t.parent[p] == r && q in t.kids && c in Unparented(t, p, r, cs).kids[q]
    ensures c in t.kids && c != p && t.parent[c] == q && t.birth[q] < t.birth[c]
  {
    assert c in t.kids[q];
  }

  lemma DetachedUpward(t: Tree, p: Pcb, r: Pcb, cs: seq<Pcb>, c: Pcb)
    requires Dated(t) && Upward(t) && p in t.kids && r in t.kids
    requires forall c | c in t.kids[r] && c != p :: c in cs
    requires c in t.kids && c != p && t.parent[c] != null
    ensures t.parent[c] in t.kids && c in Unparented(t, p, r, cs).kids[t.parent[c]]
  {
    assert c in t.kids[t.parent[c]];
  }

  lemma DropDated(t: Tree, d: set<Pcb>)
    requires Dated(t)
    ensures Dated(Drop(t, d))
  {
  }

  /** A child whose parent stays, stays. */
  lemma DropDownward(t: Tree, d: set<Pcb>, p: Pcb, c: Pcb)
    requires Dated(t) && Downward(t) && p in t.kids && p !in d && c in t.kids[p]
    requires forall c | c in t.kids && t.parent[c] != null :: c in d <==> t.parent[c] in d
    ensures c in t.kids && c !in d && t.parent[c] == p && t.birth[p] < t.birth[c]
  {
    assert t.parent[c] == p;
  }

  /** A parent whose child stays, stays. */
  lemma DropUpward(t: Tree, d: set<Pcb>, c: Pcb)
    requires Dated(t) && Upward(t) && c in t.kids && c !in d && t.parent[c] != null
    requires forall c | c in t.kids && t.parent[c] != null :: c in d <==> t.parent[c] in d
    ensures t.parent[c] in t.kids && t.parent[c] !in d && c in t.kids[t.parent[c]]
  {
    assert c in t.kids[t.parent[c]];
  }

  /** Dropping whole subtrees leaves a forest. */
  lemma DropForest(t: Tree, d: set<Pcb>)
    requires Forest(t)
    requires forall c | c in t.kids && t.parent[c] != null :: c in d <==> t.parent[c] in d
    ensures Forest(Drop(t, d))
  {
    hide Dated, Distinct, Descends, PostOrder;
    DropDated(t, d);
    var u := Drop(t, d);
    forall p, c | p in u.kids && c in u.kids[p]
      ensures c in u.kids && u.parent[c] == p && u.birth[p] < u.birth[c]
    {
      DropDownward(t, d, p, c);
    }
    forall c | c in u.kids && u.parent[c] != null
      ensures u.parent[c] in u.kids && c in u.kids[u.parent[c]]
    {
      DropUpward(t, d, c);
    }
  }

  /** What is left when p and everything below it goes is a forest again. */
  lemma PruneForest(t: Tree, p: Pcb, d: set<Pcb>)
    requires Forest(t) && p in t.kids
    requires forall q | q in t.kids :: q in d <==> Descends(t, p, q)
    ensures Forest(Drop(Detach(t, p), d))
  {
    DetachForest(t, p);
    var u := Detach(t, p);
    forall c | c in u.kids && u.parent[c] != null ensures c in d <==> u.parent[c] in d {
      assert c != p && u.parent[c] == t.parent[c];
    }
    DropForest(u, d);
  }

  /** Every live process descends from the root. */
  lemma {:induction false} AllDescend(t: Tree, root: Pcb, q: Pcb)
    requires Forest(t) && root in t.kids && q in t.kids
    requires forall p | p in t.kids :: t.parent[p] == null <==> p == root
    ensures Descends(t, root, q)
    decreases t.birth[q]
  {
    if q != root {
      AllDescend(t, root, t.parent[q]);
    }
  }
}
