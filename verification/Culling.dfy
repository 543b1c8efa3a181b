/**
 The recursion of terminateprocess, seen from the state machine: it takes the tree apart while it
 kills, and ends where killing the subtree in its kill order ends.
 */
module Culling {
  import opened Pcbs
  import opened Seqs
  import opened Family
  import opened Machine
  import opened Killing
  import opened Steps

  /* ------------------------------------------------ killing in stages */

  ghost predicate AllPlaced(s: State, d: seq<Pcb>) {
    forall p | p in d :: p in s.place
  }

  /** s after the victims of d, which leave u as the tree. */
  ghost function Culled(s: State, d: seq<Pcb>, u: Tree): State
    requires AllPlaced(s, d)
  {
    KillAll(s, d).(tree := Drop(u, Elements(d)))
  }

  lemma {:induction false} KillAllInactive(s: State, d: seq<Pcb>)
    requires s.status != Active && AllPlaced(s, d)
    ensures KillAll(s, d) == s
    decreases |d|
  {
    if d != [] {
      KillAllInactive(s, d[1..]);
    }
  }

  lemma {:induction false} KillAllAppend(s: State, d: seq<Pcb>, e: seq<Pcb>)
    requires AllPlaced(s, d) && AllPlaced(s, e)
    ensures KillAll(s, d).place.Keys == s.place.Keys && AllPlaced(s, d + e)
    ensures KillAll(s, d + e) == KillAll(KillAll(s, d), e)
    ensures KillAll(s, d + e).status == Active ==> KillAll(s, d).status == Active
    decreases |d|
  {
    hide KillOne;
    if d == [] {
      assert d + e == e;
    } else {
      assert (d + e)[0] == d[0] && (d + e)[1..] == d[1..] + e;
      KillAllAppend(KillOne(s, d[0]), d[1..], e);
    }
    if KillAll(s, d).status != Active {
      KillAllInactive(KillAll(s, d), e);
    }
  }

  /* KillOne takes one of four ways; neither the tree nor q, who is spared, makes a difference to it. */

  lemma ReleaseTree(s: State, p: Pcb, u: Tree)
    ensures Release(s.(tree := u), p) == Release(s, p).(tree := Drop(u, {p}))
  {
  }

  lemma RunningTree(s: State, p: Pcb, u: Tree)
    ensures KillRunning(s.(tree := u), p) == KillRunning(s, p).(tree := Drop(u, {p}))
  {
    hide Release;
    var n := s.(current := null, place := s.place[p := Limbo]);
    ReleaseTree(n, p, s.tree);
    ReleaseTree(n, p, u);
  }

  lemma ReadyTree(s: State, p: Pcb, u: Tree)
    requires KillReady(s, p).status == Active && s.status == Active
    ensures KillReady(s.(tree := u), p) == KillReady(s, p).(tree := Drop(u, {p}))
  {
    hide Release, Finds;
    var n := s.(ready := Minus(s.ready, {p}), place := s.place[p := Limbo]);
    ReleaseTree(n, p, u);
  }

  lemma BlockedTree(s: State, p: Pcb, a: Addr, u: Tree)
    requires a in s.blocked && KillBlocked(s, p, a).status == Active && s.status == Active
    ensures KillBlocked(s.(tree := u), p, a) == KillBlocked(s, p, a).(tree := Drop(u, {p}))
  {
    hide Release, Finds, Minus;
    ReleaseTree(Refund(OutBlocked(s, a, p), a), p, u);
    assert Refund(OutBlocked(s.(tree := u), a, p), a) == Refund(OutBlocked(s, a, p), a).(tree := u);
  }

  /** A kill drops its victims from the tree, and takes no other notice of it. */
  lemma KillOneTree(s: State, p: Pcb, u: Tree)
    requires p in s.place && KillOne(s, p).status == Active
    ensures KillOne(s.(tree := u), p) == KillOne(s, p).(tree := Drop(u, {p}))
    ensures s.status == Active
  {
    hide Release, KillRunning, KillReady, KillBlocked, Drop;
    if s.status == Active {
      if p == s.current {
        RunningTree(s, p, u);
      } else if p in s.ready {
        ReadyTree(s, p, u);
      } else if s.place[p].Waits? && s.place[p].a in s.blocked {
        BlockedTree(s, p, s.place[p].a, u);
      } else {
        ReleaseTree(s, p, u);
      }
    }
  }

  lemma DropMore(u: Tree, d: seq<Pcb>)
    requires d != []
    ensures Drop(Drop(u, {d[0]}), Elements(d[1..])) == Drop(u, Elements(d))
  {
    assert d == [d[0]] + d[1..];
    assert Elements(d) == {d[0]} + Elements(d[1..]);
  }

  lemma {:induction false} KillAllTree(s: State, d: seq<Pcb>, u: Tree)
    requires AllPlaced(s, d) && KillAll(s, d).status == Active
    ensures KillAll(s.(tree := u), d) == Culled(s, d, u)
    decreases |d|
  {
    hide KillOne, Drop;
    if d == [] {
      DropNone(u);
    } else {
      var p, n := d[0], KillOne(s, d[0]);
      if n.status != Active {
        KillAllInactive(n, d[1..]);
      }
      KillOneTree(s, p, u);
      KillAllTree(n, d[1..], Drop(u, {p}));
      DropMore(u, d);
    }
  }

  lemma DropNone(u: Tree)
    ensures Drop(u, Elements([])) == u
  {
  }

  /** What a kill of others leaves of q, and of the tables. */
  ghost predicate Spared(s: State, n: State, q: Pcb) {
    && n.status == Active && n.place.Keys == s.place.Keys
    && n.value.Keys == s.value.Keys && n.owed.Keys == s.owed.Keys && n.blocked.Keys == s.blocked.Keys
    && (q in s.place ==> n.place[q] == s.place[q])
    && (s.current == q <==> n.current == q)
  }

  lemma ReleaseSpares(s: State, n: State, p: Pcb, q: Pcb)
    requires Spared(s, n, q) && p != q && p in s.place
    ensures Spared(s, Release(n, p), q)
  {
  }

  lemma BlockedSpares(s: State, p: Pcb, a: Addr, q: Pcb)
    requires a in s.blocked && s.status == Active && p in s.place && p != q
    ensures Spared(s, Refund(OutBlocked(s, a, p), a), q) && p in Refund(OutBlocked(s, a, p), a).place
  {
    hide Minus;
  }

  lemma TakenSpares(s: State, p: Pcb, q: Pcb, ready: seq<Pcb>)
    requires s.status == Active && p in s.place && p != q
    ensures Spared(s, s, q) && Spared(s, s.(ready := ready, place := s.place[p := Limbo]), q)
    ensures p == s.current ==> Spared(s, s.(current := null, place := s.place[p := Limbo]), q)
  {
  }

  lemma KillOneSpares(s: State, p: Pcb, q: Pcb)
    requires p in s.place && KillOne(s, p).status == Active && p != q
    ensures Spared(s, KillOne(s, p), q)
  {
    hide Release, Minus, OutBlocked, Refund, Finds, Spared;
    var ready := Minus(s.ready, {p});
    if s.status == Active {
      TakenSpares(s, p, q, ready);
      if p == s.current {
        ReleaseSpares(s, s.(current := null, place := s.place[p := Limbo]), p, q);
      } else if p in s.ready {
        ReleaseSpares(s, s.(ready := ready, place := s.place[p := Limbo]), p, q);
      } else if s.place[p].Waits? && s.place[p].a in s.blocked {
        BlockedSpares(s, p, s.place[p].a, q);
        ReleaseSpares(s, Refund(OutBlocked(s, s.place[p].a, p), s.place[p].a), p, q);
      } else {
        ReleaseSpares(s, s, p, q);
      }
    }
  }

  lemma {:induction false} KillAllSpares(s: State, d: seq<Pcb>, q: Pcb)
    requires AllPlaced(s, d) && KillAll(s, d).status == Active && q !in d
    ensures Spared(s, KillAll(s, d), q)
    decreases |d|
  {
    hide KillOne;
    if d != [] {
      var n := KillOne(s, d[0]);
      if n.status != Active {
        KillAllInactive(n, d[1..]);
      }
      KillOneSpares(s, d[0], q);
      KillAllSpares(n, d[1..], q);
    }
  }

  /* ------------------------------------------------ taking the tree apart */

  ghost function Offspring(kids: map<Pcb, seq<Pcb>>): set<Pcb> {
    set p, c | p in kids && c in kids[p] :: c
  }

  /** In the subtree of p, u is still what t was. */
  ghost predicate Intact(t: Tree, u: Tree, p: Pcb)
    requires Forest(t)
  {
    forall q | q in t.kids && Descends(t, p, q) :: q in u.kids && u.kids[q] == t.kids[q]
  }

  /** Nobody in u has children that were not his in t. */
  ghost predicate Thinned(t: Tree, u: Tree) {
    && u.parent.Keys == u.kids.Keys <= t.kids.Keys
    && (forall q, c | q in u.kids && c in u.kids[q] :: c in t.kids[q])
  }

  lemma {:induction false} PostOrderAllSnoc(t: Tree, cs: seq<Pcb>, c: Pcb, b: nat)
    requires Forest(t) && b < t.now && c in t.kids && t.birth[c] > b
    requires forall d | d in cs :: d in t.kids && t.birth[d] > b
    ensures PostOrderAll(t, cs + [c], b) == PostOrderAll(t, cs, b) + PostOrder(t, c)
    decreases |cs|
  {
    if cs == [] {
      assert [] + [c] == [c] && [c][1..] == [];
    } else {
      assert (cs + [c])[0] == cs[0] && (cs + [c])[1..] == cs[1..] + [c];
      PostOrderAllSnoc(t, cs[1..], c, b);
    }
  }

  /** The subtrees of the first i children of p. */
  ghost function Cleared(t: Tree, p: Pcb, i: nat): seq<Pcb>
    requires Forest(t) && p in t.kids && i <= |t.kids[p]|
  {
    PostOrderAll(t, t.kids[p][..i], t.birth[p])
  }

  /** The tree u when the subtrees of the first i children of p are gone. */
  ghost function Stage(t: Tree, u: Tree, p: Pcb, i: nat): Tree
    requires Forest(t) && p in t.kids && i <= |t.kids[p]|
  {
    u.(kids := u.kids[p := t.kids[p][i..]])
  }

  lemma ClearedNext(t: Tree, p: Pcb, i: nat)
    requires Forest(t) && p in t.kids && i < |t.kids[p]|
    ensures t.kids[p][i] in t.kids && t.birth[p] < t.birth[t.kids[p][i]]
    ensures Cleared(t, p, i + 1) == Cleared(t, p, i) + PostOrder(t, t.kids[p][i])
  {
    var cs := t.kids[p];
    assert cs[i] in cs;
    assert cs[..i + 1] == cs[..i] + [cs[i]];
    PostOrderAllSnoc(t, cs[..i], cs[i], t.birth[p]);
  }

  /** p, those not below p, and those below a later child of p are not below an earlier one. */
  lemma NotBelow(t: Tree, p: Pcb, k: nat, i: nat, q: Pcb)
    requires Forest(t) && p in t.kids && k < i <= |t.kids[p]| && q in t.kids
    requires q == p || (i < |t.kids[p]| && Descends(t, t.kids[p][i], q)) || !Descends(t, p, q)
    ensures !Descends(t, t.kids[p][k], q)
  {
    hide PostOrder;
    var c := t.kids[p][k];
    assert c in t.kids[p];
    if Descends(t, c, q) {
      DescendsTransitive(t, p, c, q);
      DescendsOlder(t, c, q);
      SiblingsApart(t, p, c, t.kids[p][i], q);
      assert false;
    }
  }

  /** Neither p nor anybody below its later children is gone. */
  lemma ClearedApart(t: Tree, p: Pcb, i: nat, q: Pcb)
    requires Forest(t) && p in t.kids && i <= |t.kids[p]| && q in t.kids
    requires q == p || (i < |t.kids[p]| && Descends(t, t.kids[p][i], q)) || !Descends(t, p, q)
    ensures q !in Cleared(t, p, i)
  {
    var cs := t.kids[p];
    PostOrderAllExact(t, p, cs[..i]);
    forall c | c in cs[..i] ensures !Descends(t, c, q) {
      var k :| 0 <= k < i && cs[k] == c;
      NotBelow(t, p, k, i, q);
    }
  }

  lemma StageKids(t: Tree, u: Tree, p: Pcb, i: nat)
    requires Forest(t) && p in t.kids && i <= |t.kids[p]| && Intact(t, u, p) && Thinned(t, u)
    ensures var v := Drop(Stage(t, u, p, i), Elements(Cleared(t, p, i)));
            p in v.kids && v.kids[p] == t.kids[p][i..] && Thinned(t, v)
  {
    ClearedApart(t, p, i, p);
    hide Cleared, Descends, Forest;
  }

  /** Removing the next child leaves its subtree whole, and nobody's child. */
  lemma StageNext(t: Tree, u: Tree, p: Pcb, i: nat)
    requires Forest(t) && p in t.kids && i < |t.kids[p]| && Intact(t, u, p) && Thinned(t, u)
    ensures var c, v := t.kids[p][i], Drop(Stage(t, u, p, i), Elements(Cleared(t, p, i)));
            && c in t.kids && p in v.kids && v.kids[p] != [] && v.kids[p][0] == c
            && Intact(t, DropFirst(v, p), c) && Thinned(t, DropFirst(v, p))
            && c !in Offspring(DropFirst(v, p).kids)
  {
    hide Forest, Descends, Cleared, Intact, Offspring, PostOrder, Stage, Thinned;
    var v := Drop(Stage(t, u, p, i), Elements(Cleared(t, p, i)));
    StageKids(t, u, p, i);
    ClearedNext(t, p, i);
    StageOthers(t, u, p, i);
    NextLives(t, u, p, i);
    ThinnedFirst(t, v, p);
    NextIntact(t, u, p, i, DropFirst(v, p));
    NextOrphan(t, p, i, DropFirst(v, p));
  }

  lemma StageOthers(t: Tree, u: Tree, p: Pcb, i: nat)
    requires Forest(t) && p in t.kids && i < |t.kids[p]|
    ensures var v := Drop(Stage(t, u, p, i), Elements(Cleared(t, p, i)));
            forall q | q in u.kids && q !in Cleared(t, p, i) && q != p :: q in v.kids && v.kids[q] == u.kids[q]
  {
    hide Forest, Cleared;
  }

  lemma NextLives(t: Tree, u: Tree, p: Pcb, i: nat)
    requires Forest(t) && p in t.kids && i < |t.kids[p]| && Intact(t, u, p)
    ensures t.kids[p][i] in Drop(Stage(t, u, p, i), Elements(Cleared(t, p, i))).kids
  {
    var c := t.kids[p][i];
    ClearedNext(t, p, i);
    ClearedApart(t, p, i, c);
    assert c in t.kids[p] && Descends(t, p, c);
  }

  lemma ThinnedFirst(t: Tree, v: Tree, p: Pcb)
    requires Thinned(t, v) && p in v.kids && v.kids[p] != [] && v.kids[p][0] in v.kids
    ensures Thinned(t, DropFirst(v, p))
  {
    assert forall c | c in v.kids[p][1..] :: c in v.kids[p];
  }

  lemma NextIntact(t: Tree, u: Tree, p: Pcb, i: nat, w: Tree)
    requires Forest(t) && p in t.kids && i < |t.kids[p]| && Intact(t, u, p) && t.kids[p][i] in t.kids
    requires forall q | q in u.kids && q !in Cleared(t, p, i) && q != p :: q in w.kids && w.kids[q] == u.kids[q]
    ensures Intact(t, w, t.kids[p][i])
  {
    var c := t.kids[p][i];
    assert c in t.kids[p];
    forall q | q in t.kids && Descends(t, c, q) ensures q in w.kids && w.kids[q] == t.kids[q] {
      ClearedApart(t, p, i, q);
      DescendsTransitive(t, p, c, q);
      DescendsOlder(t, c, q);
    }
  }

  lemma NextOrphan(t: Tree, p: Pcb, i: nat, w: Tree)
    requires Forest(t) && p in t.kids && i < |t.kids[p]| && Thinned(t, w)
    requires p in w.kids && w.kids[p] == t.kids[p][i + 1..]
    ensures t.kids[p][i] !in Offspring(w.kids)
  {
    var c := t.kids[p][i];
    assert c in t.kids[p] && t.parent[c] == p;
    forall q | q in w.kids ensures c !in w.kids[q] {
    }
  }

  lemma TreesMeet(u: Tree, p: Pcb, q: seq<Pcb>, d: set<Pcb>, e: set<Pcb>)
    requires p in u.kids && p !in d && q != [] && q[0] in e
    ensures var v := Drop(u.(kids := u.kids[p := q]), d);
            p in v.kids && v.kids[p] == q
            && Drop(DropFirst(v, p), e) == Drop(u.(kids := u.kids[p := q[1..]]), d + e)
  {
    var v := Drop(u.(kids := u.kids[p := q]), d);
    assert v.parent[q[0] := null] - e == u.parent - (d + e);
    assert v.kids[p := q[1..]] - e == u.kids[p := q[1..]] - (d + e);
  }

  /** The tree after the next subtree has gone is that of the next stage. */
  lemma StageTrees(t: Tree, u: Tree, p: Pcb, i: nat)
    requires Forest(t) && p in t.kids && i < |t.kids[p]| && p in u.kids && t.kids[p][i] in t.kids
    ensures var c, v := t.kids[p][i], Drop(Stage(t, u, p, i), Elements(Cleared(t, p, i)));
            && p in v.kids && v.kids[p] != []
            && Drop(DropFirst(v, p), Elements(PostOrder(t, c)))
            == Drop(Stage(t, u, p, i + 1), Elements(Cleared(t, p, i + 1)))
  {
    hide Forest, PostOrder, Cleared, Drop;
    var c := t.kids[p][i];
    ClearedNext(t, p, i);
    ClearedApart(t, p, i, p);
    assert c in PostOrder(t, c);
    var d, e := Cleared(t, p, i), PostOrder(t, c);
    assert Elements(d + e) == Elements(d) + Elements(e);
    TreesMeet(u, p, t.kids[p][i..], Elements(d), Elements(e));
    assert t.kids[p][i..][1..] == t.kids[p][i + 1..];
  }

  /* ------------------------------------------------ the stages of a kill */

  ghost predicate Killed(s: State, t: Tree, p: Pcb)
    requires Forest(t) && p in t.kids
  {
    AllPlaced(s, PostOrder(t, p)) && KillAll(s, PostOrder(t, p)).status == Active
  }

  lemma OrderIsCleared(t: Tree, p: Pcb)
    requires Forest(t) && p in t.kids
    ensures PostOrder(t, p) == Cleared(t, p, |t.kids[p]|) + [p]
  {
    assert t.kids[p][..|t.kids[p]|] == t.kids[p];
  }

  lemma AllPlacedSplit(s: State, d: seq<Pcb>, e: seq<Pcb>)
    requires AllPlaced(s, d + e)
    ensures AllPlaced(s, d) && AllPlaced(s, e)
  {
    forall p | p in d || p in e ensures p in s.place {
      assert p in d + e;
    }
  }

  lemma {:induction false} SoFar(s: State, t: Tree, p: Pcb, i: nat)
    requires Forest(t) && p in t.kids && i <= |t.kids[p]| && Killed(s, t, p)
    ensures AllPlaced(s, Cleared(t, p, i)) && KillAll(s, Cleared(t, p, i)).status == Active
    decreases |t.kids[p]| - i
  {
    hide Forest, PostOrder, Cleared, KillAll, AllPlaced;
    var d := Cleared(t, p, i);
    if i == |t.kids[p]| {
      OrderIsCleared(t, p);
      AllPlacedSplit(s, d, [p]);
      KillAllAppend(s, d, [p]);
    } else {
      SoFar(s, t, p, i + 1);
      ClearedNext(t, p, i);
      AllPlacedSplit(s, d, PostOrder(t, t.kids[p][i]));
      KillAllAppend(s, d, PostOrder(t, t.kids[p][i]));
    }
  }

  /** s at stage i of the kill of p. */
  ghost function AtStage(s: State, t: Tree, p: Pcb, i: nat): State
    requires Forest(t) && p in t.kids && i <= |t.kids[p]| && Killed(s, t, p)
  {
    SoFar(s, t, p, i);
    Culled(s, Cleared(t, p, i), Stage(t, s.tree, p, i))
  }

  /** Where the recursive call starts. */
  ghost function NextCall(s: State, t: Tree, p: Pcb, i: nat): State
    requires Forest(t) && p in t.kids && i < |t.kids[p]| && Killed(s, t, p)
    requires Intact(t, s.tree, p) && Thinned(t, s.tree)
  {
    StageNext(t, s.tree, p, i);
    var n := AtStage(s, t, p, i);
    n.(tree := DropFirst(n.tree, p))
  }

  lemma CulledTwice(s: State, d: seq<Pcb>, e: seq<Pcb>, v: Tree, w: Tree)
    requires AllPlaced(s, d) && AllPlaced(s, e) && KillAll(s, d + e).status == Active
    ensures var x := Culled(s, d, v).(tree := w);
            && AllPlaced(x, e) && KillAll(x, e).status == Active
            && Culled(x, e, w) == KillAll(s, d + e).(tree := Drop(w, Elements(e)))
  {
    hide KillAll;
    KillAllAppend(s, d, e);
    KillAllTree(KillAll(s, d), e, w);
  }

  /** It ends at the next stage. */
  lemma StageDone(s: State, t: Tree, p: Pcb, i: nat)
    requires Forest(t) && p in t.kids && i < |t.kids[p]| && Killed(s, t, p)
    requires Intact(t, s.tree, p) && Thinned(t, s.tree)
    ensures var c, x := t.kids[p][i], NextCall(s, t, p, i);
            c in t.kids && Killed(x, t, c) && Culled(x, PostOrder(t, c), x.tree) == AtStage(s, t, p, i + 1)
  {
    var d, c := Cleared(t, p, i), t.kids[p][i];
    SoFar(s, t, p, i);
    SoFar(s, t, p, i + 1);
    ClearedNext(t, p, i);
    StageKids(t, s.tree, p, i);
    hide Forest, PostOrder, Cleared, KillAll, AllPlaced, Intact, Thinned, Drop, Stage;
    AllPlacedSplit(s, d, PostOrder(t, c));
    StageTrees(t, s.tree, p, i);
    CulledTwice(s, d, PostOrder(t, c), Stage(t, s.tree, p, i), NextCall(s, t, p, i).tree);
  }

  lemma LastTree(u: Tree, p: Pcb, d: seq<Pcb>)
    requires p in u.kids
    ensures Drop(Drop(u.(kids := u.kids[p := []]), Elements(d)), {p}) == Drop(u, Elements(d + [p]))
  {
    assert Elements(d + [p]) == Elements(d) + {p};
  }

  /** The last victim is p itself. */
  lemma LastVictim(s: State, t: Tree, p: Pcb, v: Tree)
    requires Forest(t) && p in t.kids && Killed(s, t, p)
    ensures var n := AtStage(s, t, p, |t.kids[p]|);
            && p in n.place && KillOne(n.(tree := v), p).status == Active
            && KillOne(n.(tree := v), p) == KillAll(s, PostOrder(t, p)).(tree := Drop(v, {p}))
  {
    var d, n := Cleared(t, p, |t.kids[p]|), AtStage(s, t, p, |t.kids[p]|);
    OrderIsCleared(t, p);
    SoFar(s, t, p, |t.kids[p]|);
    hide Forest, PostOrder, Cleared, AllPlaced, Drop, Stage, KillOne;
    AllPlacedSplit(s, d, [p]);
    KillAllAppend(s, d, [p]);
    var y := KillAll(s, d);
    OneVictim(y, p);
    KillOneTree(y, p, v);
  }

  lemma OneVictim(s: State, p: Pcb)
    requires AllPlaced(s, [p])
    ensures p in s.place && KillAll(s, [p]) == KillOne(s, p)
  {
    hide KillOne;
    assert p in [p];
    assert KillAll(KillOne(s, p), [p][1..]) == KillOne(s, p);
  }

  lemma StageEnd(t: Tree, u: Tree, p: Pcb)
    requires Forest(t) && p in t.kids && p in u.kids
    ensures var n := |t.kids[p]|;
            Drop(Drop(Stage(t, u, p, n), Elements(Cleared(t, p, n))), {p}) == Drop(u, Elements(PostOrder(t, p)))
  {
    OrderIsCleared(t, p);
    hide Forest, PostOrder, Cleared, Drop;
    LastTree(u, p, Cleared(t, p, |t.kids[p]|));
  }

  /** The process that asked to be killed still has to leave its parent. */
  lemma StageDetached(t: Tree, p: Pcb)
    requires Forest(t) && p in t.kids
    ensures var n := |t.kids[p]|; var v := Drop(Stage(t, t, p, n), Elements(Cleared(t, p, n)));
            && p in v.parent && (v.parent[p] != null ==> v.parent[p] in v.kids && p in v.kids[v.parent[p]])
            && (v.parent[p] != null ==> v.kids[v.parent[p]] == t.kids[v.parent[p]])
            && Drop(Detach(v, p), {p}) == Drop(Detach(t, p), Elements(PostOrder(t, p)))
  {
    hide Forest, Descends, PostOrder, Cleared, Drop, Detach, Elements;
    ParentLives(t, p);
    var n, r := |t.kids[p]|, t.parent[p];
    assert t.kids[p][n..] == [];
    OrderIsCleared(t, p);
    ClearedApart(t, p, n, p);
    if r != null {
      NotUnderItself(t, p);
      ClearedApart(t, p, n, r);
      DetachedTree(t, p, r, Cleared(t, p, n));
    } else {
      OrphanTree(t, p, Cleared(t, p, n));
    }
  }

  lemma NotUnderItself(t: Tree, p: Pcb)
    requires Forest(t) && p in t.kids && p in t.parent && t.parent[p] != null
    ensures var r := t.parent[p]; r in t.kids && r != p && p in t.kids[r] && !Descends(t, p, r)
  {
    hide Descends, PostOrder;
    if Descends(t, p, t.parent[p]) { DescendsOlder(t, p, t.parent[p]); }
  }

  lemma OrphanTree(t: Tree, p: Pcb, d: seq<Pcb>)
    requires p in t.kids && p in t.parent && t.parent[p] == null && p !in d
    ensures var v := Drop(t.(kids := t.kids[p := []]), Elements(d));
            p in v.parent && v.parent[p] == null && Drop(Detach(v, p), {p}) == Drop(Detach(t, p), Elements(d + [p]))
  {
    LastTree(t, p, d);
  }

  lemma DetachedTree(t: Tree, p: Pcb, r: Pcb, d: seq<Pcb>)
    requires p in t.kids && p in t.parent && t.parent[p] == r && r in t.kids && r != p && r !in d && p !in d
    ensures var v := Drop(t.(kids := t.kids[p := []]), Elements(d));
            p in v.parent && r in v.kids && v.parent[p] == r && v.kids[r] == t.kids[r]
            && Drop(Detach(v, p), {p}) == Drop(Detach(t, p), Elements(d + [p]))
  {
    hide Minus;
    var v, cs := Drop(t.(kids := t.kids[p := []]), Elements(d)), Minus(t.kids[r], {p});
    assert Elements(d + [p]) == Elements(d) + {p};
    assert v.kids[r := cs] - {p} == t.kids[r := cs] - Elements(d + [p]);
    assert v.parent[p := null] - {p} == t.parent[p := null] - Elements(d + [p]);
  }

  /* ------------------------------------------------ who is still to be killed */

  /** Each of d runs, is ready, or waits for a semaphore that exists. */
  ghost predicate Mortal(s: State, d: seq<Pcb>) {
    && s.status == Active
    && (forall q | q in d :: q in s.place && !s.place[q].Free? && !s.place[q].Limbo?)
    && (forall q | q in d && s.place[q].Waits? ::
          s.place[q].a in s.blocked && s.place[q].a in s.value && s.place[q].a in s.owed)
  }

  lemma BelowNext(t: Tree, p: Pcb, i: nat)
    requires Forest(t) && p in t.kids && i < |t.kids[p]|
    ensures t.kids[p][i] in t.kids
    ensures forall q | q in PostOrder(t, t.kids[p][i]) ::
              q in t.kids && q in PostOrder(t, p) && q != p && q !in Cleared(t, p, i)
  {
    var c := t.kids[p][i];
    ClearedNext(t, p, i);
    PostOrderExact(t, c);
    PostOrderExact(t, p);
    assert c in t.kids[p];
    forall q | q in PostOrder(t, c) ensures q in t.kids && q in PostOrder(t, p) && q != p && q !in Cleared(t, p, i) {
      DescendsTransitive(t, p, c, q);
      DescendsOlder(t, c, q);
      ClearedApart(t, p, i, q);
    }
  }

  /** The kill so far has not touched those below the next child. */
  lemma NextMortal(s: State, t: Tree, p: Pcb, i: nat)
    requires Forest(t) && p in t.kids && i < |t.kids[p]| && Killed(s, t, p)
    requires Intact(t, s.tree, p) && Thinned(t, s.tree) && Mortal(s, PostOrder(t, p))
    ensures var c, x := t.kids[p][i], NextCall(s, t, p, i);
            && c in t.kids && Mortal(x, PostOrder(t, c))
            && forall q | q in PostOrder(t, c) :: (x.current == q <==> s.current == q) && q != p && q in PostOrder(t, p)
  {
    hide Forest, PostOrder, Cleared, KillAll, Intact, Thinned, Drop, DropFirst, Stage;
    BelowNext(t, p, i);
    SoFar(s, t, p, i);
    var c, x := t.kids[p][i], NextCall(s, t, p, i);
    forall q | q in PostOrder(t, c) ensures Spared(s, KillAll(s, Cleared(t, p, i)), q) {
      KillAllSpares(s, Cleared(t, p, i), q);
    }
    assert c in PostOrder(t, c) by { LastInOrder(t, c); }
  }

  lemma LastInOrder(t: Tree, p: Pcb)
    requires Forest(t) && p in t.kids
    ensures p in PostOrder(t, p)
  {
  }

  /** When all its children are gone, p itself is as it was. */
  lemma LastMortal(s: State, t: Tree, p: Pcb)
    requires Forest(t) && p in t.kids && Killed(s, t, p) && Mortal(s, PostOrder(t, p))
    ensures Spared(s, AtStage(s, t, p, |t.kids[p]|), p) && p in s.place && !s.place[p].Free? && !s.place[p].Limbo?
    ensures s.place[p].Waits? ==>
              s.place[p].a in s.blocked && s.place[p].a in s.value && s.place[p].a in s.owed
  {
    hide Forest, PostOrder, Cleared, KillAll, Drop, Stage;
    var n := |t.kids[p]|;
    LastInOrder(t, p);
    ClearedApart(t, p, n, p);
    SoFar(s, t, p, n);
    KillAllSpares(s, Cleared(t, p, n), p);
  }

  /** p is nobody's child, once it is not its parent's. */
  lemma StageOrphan(t: Tree, u: Tree, p: Pcb, i: nat)
    requires Forest(t) && p in t.kids && i <= |t.kids[p]| && p !in Offspring(u.kids)
    ensures p !in Offspring(Drop(Stage(t, u, p, i), Elements(Cleared(t, p, i))).kids)
  {
    var v := Drop(Stage(t, u, p, i), Elements(Cleared(t, p, i)));
    forall q | q in v.kids ensures p !in v.kids[q] {
      if q != p {
        assert forall c | c in u.kids[q] :: c in Offspring(u.kids);
      }
    }
  }

  lemma DetachedOrphan(t: Tree, v: Tree, p: Pcb)
    requires Forest(t) && p in t.kids && Thinned(t, v) && p in v.parent && v.parent[p] == t.parent[p]
    requires v.parent[p] != null ==> v.parent[p] in v.kids
    ensures p !in Offspring(Detach(v, p).kids)
  {
    var w := Detach(v, p);
    forall q | q in w.kids ensures p !in w.kids[q] {
      assert p in v.kids[q] ==> p in t.kids[q];
    }
  }

  /** Everybody is the child of one process at most. */
  ghost predicate OneParent(kids: map<Pcb, seq<Pcb>>) {
    forall q, r, c | q in kids && r in kids && c in kids[q] && c in kids[r] :: q == r
  }

  lemma ThinnedParent(t: Tree, u: Tree, q: Pcb, c: Pcb)
    requires Forest(t) && Thinned(t, u) && q in u.kids && c in u.kids[q]
    ensures c in t.parent && t.parent[c] == q && c != q
  {
    assert c in t.kids[q];
  }

  /** In a thinned forest everybody is still the child of one process at most, and never of himself. */
  lemma ThinnedParents(t: Tree, u: Tree)
    requires Forest(t) && Thinned(t, u)
    ensures OneParent(u.kids) && forall q | q in u.kids :: q !in u.kids[q]
  {
    hide Forest, Thinned;
    forall q, r, c | q in u.kids && r in u.kids && c in u.kids[q] && c in u.kids[r] ensures q == r {
      ThinnedParent(t, u, q, c);
      ThinnedParent(t, u, r, c);
    }
    forall q | q in u.kids ensures q !in u.kids[q] {
      if q in u.kids[q] { ThinnedParent(t, u, q, q); }
    }
  }

  /** What OrphanFirst relies on, at stage i. */
  lemma StageBefore(s: State, t: Tree, p: Pcb, i: nat)
    requires Forest(t) && p in t.kids && i < |t.kids[p]| && Killed(s, t, p)
    requires Intact(t, s.tree, p) && Thinned(t, s.tree)
    ensures var v, c := AtStage(s, t, p, i).tree, t.kids[p][i];
            && OneParent(v.kids) && p in v.kids && p !in v.kids[p]
            && v.kids[p] != [] && v.kids[p][0] == c && c in v.kids
  {
    var c := t.kids[p][i];
    StageKids(t, s.tree, p, i);
    ThinnedParents(t, AtStage(s, t, p, i).tree);
    ClearedNext(t, p, i);
    ClearedApart(t, p, i, c);
    assert c in t.kids[p];
    assert Descends(t, p, c);
  }

  /** The stages run from the state before to the state in which all children of p are gone. */
  lemma StageBounds(s: State, t: Tree, p: Pcb)
    requires Forest(t) && p in t.kids && Killed(s, t, p) && Intact(t, s.tree, p) && Thinned(t, s.tree)
    ensures AtStage(s, t, p, 0) == s
    ensures forall i | 0 <= i <= |t.kids[p]| ::
              var v := AtStage(s, t, p, i).tree; p in v.kids && v.kids[p] == t.kids[p][i..]
  {
    assert t.kids[p][..0] == [] && t.kids[p][0..] == t.kids[p];
    assert Cleared(t, p, 0) == [];
    DropNone(Stage(t, s.tree, p, 0));
    assert s.tree.kids[p := t.kids[p]] == s.tree.kids;
    forall i | 0 <= i <= |t.kids[p]|
      ensures var v := AtStage(s, t, p, i).tree; p in v.kids && v.kids[p] == t.kids[p][i..]
    {
      StageKids(t, s.tree, p, i);
    }
  }

  /** The recursive call finds what it needs. */
  lemma NextReady(s: State, t: Tree, p: Pcb, i: nat)
    requires Forest(t) && p in t.kids && i < |t.kids[p]| && Killed(s, t, p)
    requires Intact(t, s.tree, p) && Thinned(t, s.tree)
    ensures var c, x := t.kids[p][i], NextCall(s, t, p, i);
            && c in t.kids && t.birth[p] < t.birth[c] < t.now
            && Intact(t, x.tree, c) && Thinned(t, x.tree) && c !in Offspring(x.tree.kids)
  {
    hide Intact, Thinned, Offspring, Stage, DropFirst;
    ClearedNext(t, p, i);
    StageNext(t, s.tree, p, i);
  }

  /** The end of the kill of a process that is nobody's child any more. */
  lemma LastAlone(s: State, t: Tree, p: Pcb)
    requires Forest(t) && p in t.kids && Killed(s, t, p) && p in s.tree.kids && p !in Offspring(s.tree.kids)
    ensures var n := AtStage(s, t, p, |t.kids[p]|);
            && p in n.place && KillOne(n, p).status == Active && p !in Offspring(n.tree.kids)
            && KillOne(n, p) == Culled(s, PostOrder(t, p), s.tree)
  {
    hide Forest, PostOrder, Cleared, KillAll, KillOne, Drop, Offspring;
    var n := AtStage(s, t, p, |t.kids[p]|);
    StageOrphan(t, s.tree, p, |t.kids[p]|);
    LastVictim(s, t, p, n.tree);
    StageEnd(t, s.tree, p);
  }

  /** The end of the kill of the running process, which leaves its parent last. */
  lemma LastRunning(s: State, t: Tree, p: Pcb)
    requires Forest(t) && p in t.kids && Killed(s, t, p) && s.tree == t && Intact(t, t, p) && Thinned(t, t)
    ensures var n := AtStage(s, t, p, |t.kids[p]|);
            && p in n.tree.kids && p in n.tree.parent && OneParent(n.tree.kids)
            && var r := n.tree.parent[p];
            && (r != null ==> r in n.tree.kids && r != p && p in n.tree.kids[r] && r !in n.tree.kids[r])
            && var m := n.(tree := Detach(n.tree, p));
            && p in m.place && KillOne(m, p).status == Active && p !in Offspring(m.tree.kids)
            && KillOne(m, p) == Culled(s, PostOrder(t, p), Detach(t, p))
  {
    hide Forest, PostOrder, Cleared, KillAll, KillOne, Offspring, Thinned, Intact, OneParent, Detach;
    var i := |t.kids[p]|;
    var n := AtStage(s, t, p, i);
    StageKids(t, t, p, i);
    StageDetached(t, p);
    ThinnedParents(t, n.tree);
    DetachedOrphan(t, n.tree, p);
    LastVictim(s, t, p, Detach(n.tree, p));
  }

  /* ------------------------------------------------ the kill of the running process */

  lemma CondemnedMortal(s: State)
    requires Core(s) && s.status == Active && s.current != null && s.current in s.tree.kids
    ensures Mortal(s, PostOrder(s.tree, s.current))
  {
    forall q | q in PostOrder(s.tree, s.current) ensures q in s.place && !s.place[q].Free? && !s.place[q].Limbo? {
    }
    forall q | q in PostOrder(s.tree, s.current) && s.place[q].Waits?
      ensures s.place[q].a in s.blocked && s.place[q].a in s.value && s.place[q].a in s.owed
    {
      assert Holds(s.free, s.ready, s.current, s.blocked, q, s.place[q]);
    }
  }

  lemma WholeTree(t: Tree, p: Pcb)
    requires Forest(t) && p in t.kids
    ensures Intact(t, t, p) && Thinned(t, t)
  {
  }

  /** If it corrupts nothing, it is the machine's kill, seen stage by stage. */
  lemma CondemnedKill(s: State)
    requires Core(s) && s.status == Active && s.current != null && s.current in s.tree.kids
    requires s.tree.kids.Keys <= s.place.Keys
    requires Survivable(s)
    ensures var d, u := PostOrder(s.tree, s.current), Detach(s.tree, s.current);
            && Killed(s, s.tree, s.current) && Mortal(s, d)
            && Intact(s.tree, s.tree, s.current) && Thinned(s.tree, s.tree)
            && Culled(s, d, u) == Kill(s, s.current)
            && Kill(s, s.current).current == null && Kill(s, s.current).status == Active
  {
    var d, m := PostOrder(s.tree, s.current), Doomed(s);
    DoomedKillable(s);
    CondemnedMortal(s);
    WholeTree(s.tree, s.current);
    LastInOrder(s.tree, s.current);
    hide Core, Survivors, Victims, TailFirst, KillAll, Intact, Thinned, PostOrder, Forest, Detach;
    assert TailOrder(s, d) == TailOrder(m, d);
    KillAllOutcome(m, d);
    KillAllTree(m, d, s.tree);
    KillAllTree(s, d, m.tree);
    SurvivorsCurrent(m, d);
  }

  lemma SurvivorsCurrent(s: State, d: seq<Pcb>)
    requires s.current != null && s.current in d
    ensures Survivors(s, d).current == null && Survivors(s, d).status == s.status
  {
  }
}
