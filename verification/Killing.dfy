/**
 What killing does. terminateprocess takes its victims out of their queues one at a time, children
 first; the outcome is that of taking them all out at once.
 */
module Killing {
  import opened Pcbs
  import opened Seqs
  import opened Family
  import opened Machine

  function QueuesMinus(m: map<Addr, seq<Pcb>>, d: set<Pcb>): map<Addr, seq<Pcb>> {
    map a | a in m :: Minus(m[a], d)
  }

  /** For each semaphore, how many of its waiters are in d. */
  function Gone(m: map<Addr, seq<Pcb>>, d: set<Pcb>): map<Addr, int> {
    map a | a in m :: |m[a]| - |Minus(m[a], d)|
  }

  function PlaceMinus(m: map<Pcb, Place>, d: set<Pcb>): map<Pcb, Place> {
    map p | p in m :: if p in d then Free else m[p]
  }

  /** v raised by g at the device semaphores, or at the others. */
  function Raise(base: int, v: map<Addr, int>, g: map<Addr, int>, device: bool): map<Addr, int> {
    map a | a in v :: if a in g && IsDevice(base, a) == device then v[a] + g[a] else v[a]
  }

  ghost function SoftIn(s: State, d: set<Pcb>): set<Pcb> {
    set p | p in s.place && IsSoft(s.devBase, s.place[p]) && p in d
  }

  /**
   s without the processes of d. A killed waiter's semaphore rises by one, unless it is a device's:
   then the interrupt is still to come. The free list holds the last victim first.
   */
  ghost function Survivors(s: State, d: seq<Pcb>): State {
    var ds := Elements(d);
    s.(free := Reverse(d) + s.free,
    ready := Minus(s.ready, ds),
    current := if s.current in d then null else s.current,
    blocked := QueuesMinus(s.blocked, ds),
    place := PlaceMinus(s.place, ds),
    tree := Drop(s.tree, ds),
    value := Raise(s.devBase, s.value, Gone(s.blocked, ds), false),
    owed := Raise(s.devBase, s.owed, Gone(s.blocked, ds), true),
    procCnt := s.procCnt - |d|,
    sftBlkCnt := s.sftBlkCnt - |SoftIn(s, ds)|)
  }

  /** What killing needs of a state. */
  ghost predicate Killable(s: State) {
    && Separated(s) && Placed(s)
    && s.status == Active
    && s.blocked.Keys == s.value.Keys == s.owed.Keys
  }

  /* ------------------------------------------------ one victim, by the list that holds it */

  /** s with p taken off whichever list holds it. */
  ghost function Delisted(s: State, p: Pcb): State {
    s.(ready := Minus(s.ready, {p}),
    current := if s.current == p then null else s.current,
    blocked := QueuesMinus(s.blocked, {p}),
    place := s.place[p := Limbo],
    value := Raise(s.devBase, s.value, Gone(s.blocked, {p}), false),
    owed := Raise(s.devBase, s.owed, Gone(s.blocked, {p}), true),
    sftBlkCnt := s.sftBlkCnt - |SoftIn(s, {p})|)
  }

  lemma ReleaseDelisted(s: State, p: Pcb)
    requires p in s.place
    ensures Release(Delisted(s, p), p) == Survivors(s, [p])
  {
    assert Elements([p]) == {p} && Reverse([p]) == [p];
    assert PlaceMinus(s.place, {p}) == s.place[p := Limbo][p := Free];
  }

  lemma UntouchedQueues(s: State, p: Pcb)
    requires Separated(s) && p in s.place && !s.place[p].Waits?
    ensures QueuesMinus(s.blocked, {p}) == s.blocked
    ensures forall a | a in Gone(s.blocked, {p}) :: Gone(s.blocked, {p})[a] == 0
  {
    forall a | a in s.blocked ensures Minus(s.blocked[a], {p}) == s.blocked[a] {
      MinusNone(s.blocked[a], {p});
    }
  }

  lemma NothingRaised(base: int, v: map<Addr, int>, g: map<Addr, int>, device: bool)
    requires forall a | a in g :: g[a] == 0
    ensures Raise(base, v, g, device) == v
  {
  }

  lemma DelistedIdle(s: State, p: Pcb)
    requires Separated(s) && p in s.place && !s.place[p].Waits?
    ensures Delisted(s, p) == s.(ready := Minus(s.ready, {p}),
                             current := if s.current == p then null else s.current,
                             place := s.place[p := Limbo])
  {
    hide Separated, QueuesMinus, Gone, Minus, Raise, SoftIn;
    UntouchedQueues(s, p);
    var g := Gone(s.blocked, {p});
    NothingRaised(s.devBase, s.value, g, false);
    NothingRaised(s.devBase, s.owed, g, true);
    NotSoft(s, p);
  }

  lemma NotSoft(s: State, p: Pcb)
    requires p in s.place && !s.place[p].Waits?
    ensures SoftIn(s, {p}) == {}
  {
  }

  lemma TouchedQueue(s: State, p: Pcb, a: Addr)
    requires Separated(s) && Placed(s) && p in s.place && s.place[p] == Waits(a)
    ensures forall b | b in s.blocked && b != a :: Minus(s.blocked[b], {p}) == s.blocked[b]
    ensures |Minus(s.blocked[a], {p})| == |s.blocked[a]| - 1
  {
    forall b | b in s.blocked && b != a ensures Minus(s.blocked[b], {p}) == s.blocked[b] {
      MinusNone(s.blocked[b], {p});
    }
    MinusOne(s.blocked[a], p);
  }

  lemma TouchedQueues(m: map<Addr, seq<Pcb>>, p: Pcb, a: Addr)
    requires a in m && |Minus(m[a], {p})| == |m[a]| - 1
    requires forall b | b in m && b != a :: Minus(m[b], {p}) == m[b]
    ensures QueuesMinus(m, {p}) == m[a := Minus(m[a], {p})]
    ensures forall b | b in m :: Gone(m, {p})[b] == if b == a then 1 else 0
  {
  }

  lemma OneRaised(s: State, p: Pcb, a: Addr, g: map<Addr, int>)
    requires p in s.place && s.place[p] == Waits(a) && p != s.current && a in s.blocked
    requires a in g && g.Keys == s.value.Keys == s.owed.Keys
    requires forall b | b in g :: g[b] == if b == a then 1 else 0
    ensures Refund(OutBlocked(s, a, p), a)
         == s.(blocked := s.blocked[a := Minus(s.blocked[a], {p})], place := s.place[p := Limbo],
               value := Raise(s.devBase, s.value, g, false), owed := Raise(s.devBase, s.owed, g, true),
               sftBlkCnt := s.sftBlkCnt - |SoftIn(s, {p})|)
  {
    assert SoftIn(s, {p}) == if IsDevice(s.devBase, a) then {p} else {};
    if IsDevice(s.devBase, a) {
      assert Raise(s.devBase, s.value, g, false) == s.value;
      assert Raise(s.devBase, s.owed, g, true) == s.owed[a := s.owed[a] + 1];
    } else {
      assert Raise(s.devBase, s.value, g, false) == s.value[a := s.value[a] + 1];
      assert Raise(s.devBase, s.owed, g, true) == s.owed;
    }
  }

  lemma GoneKeys(m: map<Addr, seq<Pcb>>, d: set<Pcb>)
    ensures Gone(m, d).Keys == m.Keys
  {
  }

  lemma WaiterAt(s: State, p: Pcb, a: Addr)
    requires Killable(s) && p in s.place && s.place[p] == Waits(a)
    ensures p !in s.ready && p != s.current && a in s.blocked
  {
    assert Holds(s.free, s.ready, s.current, s.blocked, p, s.place[p]);
  }

  lemma DelistedBlocked(s: State, p: Pcb, a: Addr)
    requires Killable(s) && p in s.place && s.place[p] == Waits(a)
    ensures Refund(OutBlocked(s, a, p), a) == Delisted(s, p)
  {
    hide Refund, OutBlocked, Minus, QueuesMinus, Gone, Raise, SoftIn;
    WaiterAt(s, p, a);
    TouchedQueue(s, p, a);
    TouchedQueues(s.blocked, p, a);
    GoneKeys(s.blocked, {p});
    OneRaised(s, p, a, Gone(s.blocked, {p}));
    MinusNone(s.ready, {p});
  }

  /** The list tests of terminateprocess find a process where its place says. */
  lemma Whereabouts(s: State, p: Pcb)
    requires Separated(s) && Placed(s) && p in s.place
    ensures p == s.current <==> s.place[p].Running?
    ensures p in s.ready <==> s.place[p].Ready?
    ensures s.place[p].Waits? ==> s.place[p].a in s.blocked && p in s.blocked[s.place[p].a]
    ensures !s.place[p].Ready? ==> Minus(s.ready, {p}) == s.ready
  {
    assert Holds(s.free, s.ready, s.current, s.blocked, p, s.place[p]);
    if p !in s.ready { MinusNone(s.ready, {p}); }
  }

  lemma KillCurrent(s: State, p: Pcb)
    requires Killable(s) && p in s.place && s.place[p].Running?
    ensures KillOne(s, p) == Release(Delisted(s, p), p)
  {
    hide Separated, Placed, Release, Delisted;
    Whereabouts(s, p);
    DelistedIdle(s, p);
  }

  lemma KillQueued(s: State, p: Pcb)
    requires Killable(s) && p in s.place && s.place[p].Ready? && KillOne(s, p).status == Active
    ensures KillOne(s, p) == Release(Delisted(s, p), p)
  {
    hide Separated, Placed, Delisted;
    Whereabouts(s, p);
    DelistedIdle(s, p);
  }

  lemma KillWaiter(s: State, p: Pcb)
    requires Killable(s) && p in s.place && s.place[p].Waits?
    requires KillOne(s, p).status == Active
    ensures KillOne(s, p) == Release(Delisted(s, p), p)
  {
    hide Separated, Placed, Release, Delisted, Refund, OutBlocked;
    Whereabouts(s, p);
    DelistedBlocked(s, p, s.place[p].a);
  }

  lemma KillOneSurvivors(s: State, p: Pcb)
    requires Killable(s) && p in s.place && !s.place[p].Free? && !s.place[p].Limbo?
    requires KillOne(s, p).status == Active
    ensures KillOne(s, p) == Survivors(s, [p])
  {
    hide Release, Delisted, Survivors;
    ReleaseDelisted(s, p);
    match s.place[p]
    case Waits(_) => KillWaiter(s, p);
    case Ready => KillQueued(s, p);
    case Running => KillCurrent(s, p);
  }

  /* ------------------------------------------------ any number of victims */

  lemma GoneTwice(m: map<Addr, seq<Pcb>>, d: set<Pcb>, e: set<Pcb>)
    ensures QueuesMinus(QueuesMinus(m, d), e) == QueuesMinus(m, d + e)
    ensures forall a | a in m :: Gone(m, d)[a] + Gone(QueuesMinus(m, d), e)[a] == Gone(m, d + e)[a]
  {
    forall a | a in m ensures Minus(Minus(m[a], d), e) == Minus(m[a], d + e) {
      MinusMinus(m[a], d, e);
    }
  }

  lemma RaiseTwice(base: int, v: map<Addr, int>, f: map<Addr, int>, g: map<Addr, int>, h: map<Addr, int>, device: bool)
    requires f.Keys == g.Keys == h.Keys && forall a | a in f :: f[a] + g[a] == h[a]
    ensures Raise(base, Raise(base, v, f, device), g, device) == Raise(base, v, h, device)
  {
  }

  lemma SoftTwice(s: State, n: State, p: Pcb, d: set<Pcb>)
    requires p in s.place && p !in d && n.devBase == s.devBase && n.place == PlaceMinus(s.place, {p})
    ensures |SoftIn(s, {p})| + |SoftIn(n, d)| == |SoftIn(s, {p} + d)|
  {
    assert SoftIn(n, d) == SoftIn(s, d);
    assert SoftIn(s, {p} + d) == SoftIn(s, {p}) + SoftIn(s, d);
  }

  lemma FreedTwice(free: seq<Pcb>, place: map<Pcb, Place>, p: Pcb, d: seq<Pcb>)
    ensures Elements([p]) == {p} && Elements([p] + d) == {p} + Elements(d)
    ensures Reverse(d) + (Reverse([p]) + free) == Reverse([p] + d) + free
    ensures PlaceMinus(PlaceMinus(place, {p}), Elements(d)) == PlaceMinus(place, {p} + Elements(d))
  {
    assert ([p] + d)[1..] == d;
    assert Reverse([p]) == [p];
  }

  lemma DropTwice(t: Tree, d: set<Pcb>, e: set<Pcb>)
    ensures Drop(Drop(t, d), e) == Drop(t, d + e)
  {
  }

  /** Killing p and then d is killing p and d. */
  lemma SurvivorsTwice(s: State, p: Pcb, d: seq<Pcb>)
    requires p in s.place && p !in d
    ensures Survivors(Survivors(s, [p]), d) == Survivors(s, [p] + d)
  {
    hide Minus, QueuesMinus, Gone, Raise, SoftIn, PlaceMinus, Elements, Reverse, Drop;
    var n, ds := Survivors(s, [p]), Elements(d);
    FreedTwice(s.free, s.place, p, d);
    DropTwice(s.tree, {p}, ds);
    MinusMinus(s.ready, {p}, ds);
    RefundTwice(s, n, p, ds);
    SoftTwice(s, n, p, ds);
  }

  lemma RefundTwice(s: State, n: State, p: Pcb, ds: set<Pcb>)
    requires n.blocked == QueuesMinus(s.blocked, {p})
    requires n.value == Raise(s.devBase, s.value, Gone(s.blocked, {p}), false)
    requires n.owed == Raise(s.devBase, s.owed, Gone(s.blocked, {p}), true)
    ensures QueuesMinus(n.blocked, ds) == QueuesMinus(s.blocked, {p} + ds)
    ensures Raise(s.devBase, n.value, Gone(n.blocked, ds), false)
         == Raise(s.devBase, s.value, Gone(s.blocked, {p} + ds), false)
    ensures Raise(s.devBase, n.owed, Gone(n.blocked, ds), true)
         == Raise(s.devBase, s.owed, Gone(s.blocked, {p} + ds), true)
  {
    GoneTwice(s.blocked, {p}, ds);
    RaiseTwice(s.devBase, s.value, Gone(s.blocked, {p}), Gone(n.blocked, ds), Gone(s.blocked, {p} + ds), false);
    RaiseTwice(s.devBase, s.owed, Gone(s.blocked, {p}), Gone(n.blocked, ds), Gone(s.blocked, {p} + ds), true);
  }

  ghost predicate Victims(s: State, d: seq<Pcb>) {
    Distinct(d) && forall p | p in d :: p in s.place && !s.place[p].Free? && !s.place[p].Limbo?
  }

  lemma ListedMinus(place: map<Pcb, Place>, q: seq<Pcb>, at: Place, ds: set<Pcb>)
    requires Listed(place, q, at)
    ensures Listed(PlaceMinus(place, ds), Minus(q, ds), at)
  {
    MinusDistinct(q, ds);
  }

  lemma SurvivorsKillable(s: State, d: seq<Pcb>)
    requires Killable(s) && Victims(s, d)
    ensures Killable(Survivors(s, d))
  {
    var n, ds := Survivors(s, d), Elements(d);
    SurvivorsFree(s, d);
    ListedMinus(s.place, s.ready, Ready, ds);
    forall a | a in s.blocked ensures a != NULL_ADDR && Listed(n.place, n.blocked[a], Waits(a)) {
      ListedMinus(s.place, s.blocked[a], Waits(a), ds);
    }
    SurvivorsPlaced(s, d);
  }

  lemma SurvivorsFree(s: State, d: seq<Pcb>)
    requires Listed(s.place, s.free, Free) && Victims(s, d)
    ensures Listed(Survivors(s, d).place, Survivors(s, d).free, Free)
  {
    ReverseDistinct(d);
    DistinctAppend(Reverse(d), s.free);
  }

  lemma SurvivorsPlaced(s: State, d: seq<Pcb>)
    requires Placed(s)
    ensures Placed(Survivors(s, d))
  {
    var n := Survivors(s, d);
    forall p | p in n.place ensures Holds(n.free, n.ready, n.current, n.blocked, p, n.place[p]) {
      assert Holds(s.free, s.ready, s.current, s.blocked, p, s.place[p]);
      if p in d {
        var i :| 0 <= i < |d| && d[i] == p;
        assert n.free[|d| - 1 - i] == p;
      }
    }
  }

  /* ------------------------------------------------ the whole kill, with either scan */

  ghost predicate Earlier(d: seq<Pcb>, x: Pcb, y: Pcb) {
    exists k, l | 0 <= k < l < |d| :: d[k] == x && d[l] == y
  }

  /** Behind a victim of q stand only victims that are killed before it. */
  ghost predicate TailFirst(q: seq<Pcb>, d: seq<Pcb>) {
    forall i, j | 0 <= i < j < |q| && q[i] in d :: Earlier(d, q[j], q[i])
  }

  /** The kill order d takes every queue apart from its tail. */
  ghost predicate TailOrder(s: State, d: seq<Pcb>) {
    TailFirst(s.ready, d) && forall a | a in s.blocked :: TailFirst(s.blocked[a], d)
  }

  /** Where the kill of the running process succeeds: with outProcQ as documented, always. */
  ghost predicate Survivable(s: State)
    requires s.current != null && Forest(s.tree) && s.current in s.tree.kids
  {
    s.scan.FromHead? || TailOrder(s, PostOrder(s.tree, s.current))
  }

  lemma EarlierAppend(d: seq<Pcb>, e: seq<Pcb>, x: Pcb, y: Pcb)
    ensures Earlier(d, x, y) || Earlier(e, x, y) || (x in d && y in e) ==> Earlier(d + e, x, y)
  {
    var de := d + e;
    if Earlier(d, x, y) {
      var k, l :| 0 <= k < l < |d| && d[k] == x && d[l] == y;
      assert de[k] == x && de[l] == y;
    } else if Earlier(e, x, y) {
      var k, l :| 0 <= k < l < |e| && e[k] == x && e[l] == y;
      assert de[|d| + k] == x && de[|d| + l] == y;
    } else if x in d && y in e {
      var k, l :| 0 <= k < |d| && 0 <= l < |e| && d[k] == x && e[l] == y;
      assert de[k] == x && de[|d| + l] == y;
    }
  }

  /** Subtrees come in the order of their roots. */
  lemma {:induction false} RootsInOrder(t: Tree, cs: seq<Pcb>, b: nat, i: nat, j: int)
    requires Forest(t) && b < t.now && forall c | c in cs :: c in t.kids && t.birth[c] > b
    requires i < |cs|
    ensures cs[i] in PostOrderAll(t, cs, b)
    ensures i < j < |cs| ==> Earlier(PostOrderAll(t, cs, b), cs[i], cs[j])
    decreases |cs|
  {
    hide Forest, Earlier;
    var first, rest := PostOrder(t, cs[0]), PostOrderAll(t, cs[1..], b);
    assert cs[0] == Last(first) && cs[0] in first;
    if i > 0 { RootsInOrder(t, cs[1..], b, i - 1, j - 1); }
    if i == 0 && j > 0 && j < |cs| { RootsInOrder(t, cs[1..], b, j - 1, 0); }
    if i < j < |cs| { EarlierAppend(first, rest, cs[i], cs[j]); }
  }

  /** Every process of the kill order comes after its children, and they come from the first one on. */
  lemma {:induction false} KillOrder(t: Tree, p: Pcb, q: Pcb, i: nat, j: nat)
    requires Forest(t) && p in t.kids && q in PostOrder(t, p) && i < |t.kids[q]|
    ensures Earlier(PostOrder(t, p), t.kids[q][i], q)
    ensures i < j < |t.kids[q]| ==> Earlier(PostOrder(t, p), t.kids[q][i], t.kids[q][j])
    decreases t.now - t.birth[p], |t.kids[p]| + 1
  {
    hide Earlier;
    var all := PostOrderAll(t, t.kids[p], t.birth[p]);
    if q == p {
      RootsInOrder(t, t.kids[p], t.birth[p], i, j);
    } else {
      KillOrderAll(t, t.kids[p], t.birth[p], q, i, j);
    }
    EarlierAppend(all, [p], t.kids[q][i], q);
    if i < j < |t.kids[q]| { EarlierAppend(all, [p], t.kids[q][i], t.kids[q][j]); }
  }

  lemma {:induction false} KillOrderAll(t: Tree, cs: seq<Pcb>, b: nat, q: Pcb, i: nat, j: nat)
    requires Forest(t) && b < t.now && forall c | c in cs :: c in t.kids && t.birth[c] > b
    requires q in PostOrderAll(t, cs, b) && i < |t.kids[q]|
    ensures Earlier(PostOrderAll(t, cs, b), t.kids[q][i], q)
    ensures i < j < |t.kids[q]| ==> Earlier(PostOrderAll(t, cs, b), t.kids[q][i], t.kids[q][j])
    decreases t.now - b, |cs|
  {
    hide Earlier;
    var first, rest := PostOrder(t, cs[0]), PostOrderAll(t, cs[1..], b);
    if q in first {
      KillOrder(t, cs[0], q, i, j);
    } else {
      KillOrderAll(t, cs[1..], b, q, i, j);
    }
    EarlierAppend(first, rest, t.kids[q][i], q);
    if i < j < |t.kids[q]| { EarlierAppend(first, rest, t.kids[q][i], t.kids[q][j]); }
  }

  lemma EarlierRest(p: Pcb, d: seq<Pcb>, x: Pcb, y: Pcb)
    requires p !in d
    ensures y in d ==> Earlier([p] + d, p, y)
    ensures x != p ==> (Earlier([p] + d, x, y) <==> Earlier(d, x, y))
    ensures !Earlier([p] + d, x, p)
  {
    var pd := [p] + d;
    if y in d {
      var l :| 0 <= l < |d| && d[l] == y;
      assert pd[0] == p && pd[l + 1] == y;
    }
    if Earlier(d, x, y) {
      var k, l :| 0 <= k < l < |d| && d[k] == x && d[l] == y;
      assert pd[k + 1] == x && pd[l + 1] == y;
    }
    if x != p && Earlier(pd, x, y) {
      var k, l :| 0 <= k < l < |pd| && pd[k] == x && pd[l] == y;
      assert d[k - 1] == x && d[l - 1] == y;
    }
  }

  ghost predicate AtTail(q: seq<Pcb>, p: Pcb) {
    p in q ==> Last(q) == p
  }

  lemma TailFirstAbsent(q: seq<Pcb>, p: Pcb, d: seq<Pcb>)
    requires p !in d && p !in q
    ensures TailFirst(q, [p] + d) <==> TailFirst(q, d)
  {
    forall i, j | 0 <= i < j < |q| ensures Earlier([p] + d, q[j], q[i]) <==> Earlier(d, q[j], q[i]) {
      EarlierRest(p, d, q[j], q[i]);
    }
  }

  lemma TailFirstLast(q: seq<Pcb>, p: Pcb, d: seq<Pcb>)
    requires p !in d && p !in q
    ensures TailFirst(q + [p], [p] + d) <==> TailFirst(q, d)
  {
    TailFirstAbsent(q, p, d);
    forall i | 0 <= i < |q| && q[i] in d ensures Earlier([p] + d, p, q[i]) {
      EarlierRest(p, d, p, q[i]);
    }
    if TailFirst(q + [p], [p] + d) {
      forall i, j | 0 <= i < j < |q| && q[i] in [p] + d ensures Earlier([p] + d, q[j], q[i]) {
        assert (q + [p])[i] == q[i] && (q + [p])[j] == q[j];
      }
    }
  }

  lemma TailFirstStep(q: seq<Pcb>, p: Pcb, d: seq<Pcb>)
    requires Distinct(q) && p !in d
    ensures TailFirst(q, [p] + d) <==> AtTail(q, p) && TailFirst(Minus(q, {p}), d)
  {
    if p !in q {
      MinusNone(q, {p});
      TailFirstAbsent(q, p, d);
    } else if Last(q) == p {
      MinusAt(q, |q| - 1);
      var r := q[..|q| - 1];
      assert q == r + [p] && Minus(q, {p}) == r;
      TailFirstLast(r, p, d);
    } else {
      var i :| 0 <= i < |q| && q[i] == p;
      EarlierRest(p, d, q[|q| - 1], p);
      assert !Earlier([p] + d, q[|q| - 1], q[i]);
    }
  }

  lemma TailOrderStep(s: State, p: Pcb, d: seq<Pcb>)
    requires Separated(s) && p !in d
    ensures TailOrder(s, [p] + d) <==>
            AtTail(s.ready, p) && (forall a | a in s.blocked :: AtTail(s.blocked[a], p))
            && TailOrder(Survivors(s, [p]), d)
  {
    var n := Survivors(s, [p]);
    assert Elements([p]) == {p};
    TailFirstStep(s.ready, p, d);
    forall a | a in s.blocked
      ensures TailFirst(s.blocked[a], [p] + d) <==> AtTail(s.blocked[a], p) && TailFirst(n.blocked[a], d)
    {
      TailFirstStep(s.blocked[a], p, d);
    }
  }

  /** With the documented scan nothing is ever corrupted; as written, exactly a victim with someone behind it is. */
  lemma KillOneActive(s: State, p: Pcb)
    requires Killable(s) && p in s.place && !s.place[p].Free? && !s.place[p].Limbo?
    ensures KillOne(s, p).status == Active <==>
            s.scan.FromHead? || (AtTail(s.ready, p) && forall a | a in s.blocked :: AtTail(s.blocked[a], p))
    ensures KillOne(s, p).status in {Active, Corrupted}
  {
    assert Holds(s.free, s.ready, s.current, s.blocked, p, s.place[p]);
  }

  lemma {:induction false} KillAllCorrupted(s: State, d: seq<Pcb>)
    requires s.status == Corrupted && forall p | p in d :: p in s.place
    ensures KillAll(s, d) == s
    decreases |d|
  {
    if d != [] {
      KillAllCorrupted(s, d[1..]);
    }
  }

  /**
   The recursive kill, victim by victim, is the removal of all victims at once. That is so for every
   tree and every arrangement of queues if outProcQ scans from the head. As the code has it, it is so
   exactly when the kill order takes every queue apart from its tail.
   */
  lemma {:induction false} KillAllOutcome(s: State, d: seq<Pcb>)
    requires Killable(s) && Victims(s, d) && d != []
    ensures s.scan.FromHead? || TailOrder(s, d) ==> KillAll(s, d) == Survivors(s, d)
    ensures !(s.scan.FromHead? || TailOrder(s, d)) ==> KillAll(s, d).status == Corrupted
    decreases |d|
  {
    var p, rest, n := d[0], d[1..], KillOne(s, d[0]);
    assert d == [p] + rest && p !in rest;
    KillOneActive(s, p);
    TailOrderStep(s, p, rest);
    hide Killable, KillOne, Survivors, TailFirst, AtTail;
    if n.status != Active {
      KillAllCorrupted(n, rest);
    } else {
      KillOneSurvivors(s, p);
      if rest == [] {
        TailOrderNone(n);
        assert KillAll(n, rest) == n && [p] + rest == [p];
      } else {
        SurvivorsVictims(s, p, rest);
        KillAllOutcome(n, rest);
        SurvivorsTwice(s, p, rest);
      }
    }
  }

  lemma TailOrderNone(s: State)
    ensures TailOrder(s, [])
  {
  }

  lemma SurvivorsVictims(s: State, p: Pcb, d: seq<Pcb>)
    requires Killable(s) && Victims(s, [p] + d)
    ensures Killable(Survivors(s, [p])) && Victims(Survivors(s, [p]), d)
  {
    hide Killable;
    var pd := [p] + d;
    assert pd[1..] == d && p in pd;
    assert forall q | q in d :: q in pd;
    assert Victims(s, [p]);
    SurvivorsKillable(s, [p]);
    forall i | 0 <= i < |d| ensures d[i] != p {
      assert pd[i + 1] != pd[0];
    }
  }
}
