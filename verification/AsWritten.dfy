/** What the search of outProcQ, as the code has it, does to a kill. */
module AsWritten {
  import opened Pcbs
  import opened Seqs
  import opened Family
  import opened Machine
  import opened Killing
  import opened Steps
  import opened Runs

  /** The first process r makes c, c makes g, and r is killed while g is ready in front of c. */
  const FATAL: seq<Event> := [Create, Quantum, Create, Quantum, Terminate]

  /** A running r, with the others ready and nobody blocked. */
  ghost predicate Looks(s: State, running: Pcb, ready: seq<Pcb>, free: seq<Pcb>, kids: map<Pcb, seq<Pcb>>) {
    && Inv(s) && s.status == Active && s.scan.FromTail?
    && s.current == running && s.ready == ready && s.free == free && s.tree.kids == kids
  }

  lemma InvCallable(s: State)
    requires Inv(s)
    ensures Callable(s) && Forest(s.tree)
  {
    hide Core;
    CoreCallable(s);
  }

  lemma CreateIs(s: State)
    requires s.current != null && s.current in s.tree.kids && s.free != []
    ensures var n, c := CreateProcess(s), s.free[0];
            && n.status == s.status && n.scan == s.scan && n.current == s.current
            && n.ready == s.ready + [c] && n.free == s.free[1..]
            && n.tree.kids == s.tree.kids[s.current := [c] + s.tree.kids[s.current]][c := []]
  {
  }

  lemma QuantumIs(s: State)
    requires s.current != null && s.status == Active
    ensures var n := QuantumEnd(s);
            && n.status == Active && n.scan == s.scan && n.current == (s.ready + [s.current])[0]
            && n.ready == (s.ready + [s.current])[1..] && n.free == s.free && n.tree == s.tree
  {
  }

  lemma CreateLooks(s: State, p: Pcb, ready: seq<Pcb>, free: seq<Pcb>, kids: map<Pcb, seq<Pcb>>)
    requires Looks(s, p, ready, free, kids) && free != [] && p in kids
    ensures Callable(s) && Legal(s, Create)
    ensures Looks(Do(s, Create), p, ready + [free[0]], free[1..], kids[p := [free[0]] + kids[p]][free[0] := []])
  {
    hide Inv, Callable, CreateProcess, Forest, PostOrder;
    InvCallable(s);
    CreateIs(s);
    StepInv(s, Create);
  }

  lemma QuantumLooks(s: State, p: Pcb, ready: seq<Pcb>, free: seq<Pcb>, kids: map<Pcb, seq<Pcb>>)
    requires Looks(s, p, ready, free, kids)
    ensures Callable(s) && Legal(s, Quantum)
    ensures Looks(Do(s, Quantum), (ready + [p])[0], (ready + [p])[1..], free, kids)
  {
    hide Inv, Callable, QuantumEnd, Forest, PostOrder;
    InvCallable(s);
    QuantumIs(s);
    StepInv(s, Quantum);
  }

  lemma OnlyChild(t: Tree, p: Pcb, c: Pcb)
    requires Forest(t) && p in t.kids && t.kids[p] == [c] && c in t.kids
    ensures PostOrder(t, p) == PostOrder(t, c) + [p]
  {
    assert c in t.kids[p];
    assert t.kids[p][1..] == [];
    assert PostOrderAll(t, [], t.birth[p]) == [];
    assert PostOrderAll(t, t.kids[p], t.birth[p])
        == PostOrder(t, t.kids[p][0]) + PostOrderAll(t, t.kids[p][1..], t.birth[p]);
  }

  /** The children, once r has made c and c has made g. */
  function Line(r: Pcb, c: Pcb, g: Pcb): map<Pcb, seq<Pcb>> {
    map[r := [c], c := [g], g := []]
  }

  lemma FatalOrder(t: Tree, r: Pcb, c: Pcb, g: Pcb)
    requires Forest(t) && t.kids == Line(r, c, g) && r != c && r != g && c != g
    ensures PostOrder(t, r) == [g, c, r]
  {
    assert PostOrder(t, g) == [g];
    OnlyChild(t, c, g);
    OnlyChild(t, r, c);
    hide Forest, PostOrder;
  }

  lemma FatalQueue(g: Pcb, c: Pcb, r: Pcb)
    requires r != c && r != g && c != g
    ensures !TailFirst([g, c], [g, c, r])
  {
    var q, d := [g, c], [g, c, r];
    assert q[0] == d[0] && q[1] == d[1] && q[0] in d;
    assert !Earlier(d, q[1], q[0]);
  }

  lemma FatalKill(s: State, r: Pcb, c: Pcb, g: Pcb, free: seq<Pcb>)
    requires Looks(s, r, [g, c], free, Line(r, c, g)) && r != c && r != g && c != g
    ensures Callable(s) && Legal(s, Terminate) && Do(s, Terminate).status == Corrupted
  {
    hide Inv, Callable, Forest, PostOrder, TailFirst, Do;
    InvCallable(s);
    FatalOrder(s.tree, r, c, g);
    FatalQueue(g, c, r);
    StepInv(s, Terminate);
  }

  /** s, once a new process c has been made and the time slice is over. */
  lemma CreateQuantum(s: State, p: Pcb, ready: seq<Pcb>, free: seq<Pcb>, kids: map<Pcb, seq<Pcb>>) returns (n: State)
    requires Looks(s, p, ready, free, kids) && free != [] && p in kids
    ensures Callable(s) && Legal(s, Create) && Callable(Do(s, Create)) && Legal(Do(s, Create), Quantum)
    ensures n == Do(Do(s, Create), Quantum)
    ensures var q := ready + [free[0]] + [p];
            Looks(n, q[0], q[1..], free[1..], kids[p := [free[0]] + kids[p]][free[0] := []])
  {
    hide Do, Looks, Callable, Legal;
    CreateLooks(s, p, ready, free, kids);
    var m := Do(s, Create);
    QuantumLooks(m, p, ready + [free[0]], free[1..], kids[p := [free[0]] + kids[p]][free[0] := []]);
    n := Do(m, Quantum);
  }

  /** The kill that is legal in n is the last event of FATAL in s. */
  ghost predicate Leads(s: State, n: State) {
    LegalRun(n, [Terminate]) ==> LegalRun(s, FATAL) && Run(s, FATAL) == Run(n, [Terminate])
  }

  /** s after the events of FATAL but the last. */
  lemma FatalStart(s: State, r: Pcb, c: Pcb, g: Pcb, free: seq<Pcb>) returns (n: State)
    requires Looks(s, r, [], [c, g] + free, map[r := []]) && r != c && r != g && c != g
    ensures Looks(n, r, [g, c], free, Line(r, c, g)) && Leads(s, n)
  {
    hide Do, Looks, Leads, Callable, Legal;
    var f, alone: map<Pcb, seq<Pcb>> := [c, g] + free, map[r := []];
    var m := CreateQuantum(s, r, [], f, alone);
    assert f[0] == c && f[1..] == [g] + free && [] + [c] + [r] == [c, r];
    assert alone[r] == [] && [c] + [] == [c];
    assert alone[r := [c]][c := []] == map[r := [c], c := []];
    n := CreateQuantum(m, c, [r], [g] + free, map[r := [c], c := []]);
    assert ([g] + free)[0] == g && ([g] + free)[1..] == free && [r] + [g] + [c] == [r, g, c];
    assert [g] + [] == [g];
    assert map[r := [c], c := []][c := [g]][g := []] == map[r := [c], c := [g], g := []];
    Unrolled(s, Do(s, Create), m, Do(m, Create), n);
  }

  lemma Unrolled(s: State, s1: State, s2: State, s3: State, n: State)
    requires Callable(s) && Legal(s, Create) && s1 == Do(s, Create)
    requires Callable(s1) && Legal(s1, Quantum) && s2 == Do(s1, Quantum)
    requires Callable(s2) && Legal(s2, Create) && s3 == Do(s2, Create)
    requires Callable(s3) && Legal(s3, Quantum) && n == Do(s3, Quantum)
    ensures Leads(s, n)
  {
    hide Do, Callable, Legal;
    if LegalRun(n, [Terminate]) {
      assert LegalRun(s3, [Quantum, Terminate]) by { assert [Quantum, Terminate][1..] == [Terminate]; }
      assert LegalRun(s2, [Create, Quantum, Terminate]) by {
        assert [Create, Quantum, Terminate][1..] == [Quantum, Terminate];
      }
      assert LegalRun(s1, [Quantum, Create, Quantum, Terminate]) by {
        assert [Quantum, Create, Quantum, Terminate][1..] == [Create, Quantum, Terminate];
      }
      assert FATAL[1..] == [Quantum, Create, Quantum, Terminate];
    }
  }

  /**
   As written, five events after start-up are enough: the kill looks for g, which is not at the tail
   of the ready queue, does not find it, and frees it all the same.
   */
  lemma FatalRun(base: int, pcbs: seq<Pcb>, value: map<Addr, int>)
    requires |pcbs| >= 3 && Distinct(pcbs)
    requires 0 <= base && base + 4 * DEVICECNT <= NULL_ADDR && NULL_ADDR !in value
    requires forall i | 0 <= i < DEVICECNT :: DeviceAdd(base, i) in value && value[DeviceAdd(base, i)] == 0
    requires forall a | a in value :: value[a] >= 0
    ensures var s := Scheduler(Boot(base, FromTail, pcbs, value));
            LegalRun(s, FATAL) && Run(s, FATAL).status == Corrupted
  {
    hide Inv, Looks, Boot, Scheduler, Callable, Legal, Do, Leads;
    var s, r, c, g := Scheduler(Boot(base, FromTail, pcbs, value)), pcbs[0], pcbs[1], pcbs[2];
    BootInv(base, FromTail, pcbs, value);
    BootLooks(base, pcbs, value);
    var n := FatalStart(s, r, c, g, pcbs[3..]);
    FatalKill(n, r, c, g, pcbs[3..]);
    OneMore(s, n);
  }

  lemma BootLooks(base: int, pcbs: seq<Pcb>, value: map<Addr, int>)
    requires |pcbs| >= 3
    requires Inv(Scheduler(Boot(base, FromTail, pcbs, value)))
    ensures Looks(Scheduler(Boot(base, FromTail, pcbs, value)), pcbs[0], [], [pcbs[1], pcbs[2]] + pcbs[3..],
                  map[pcbs[0] := []])
  {
    hide Inv;
    assert pcbs[1..] == [pcbs[1], pcbs[2]] + pcbs[3..];
    assert [pcbs[0]][1..] == [];
  }

  lemma OneMore(s: State, n: State)
    requires Leads(s, n) && Callable(n) && Legal(n, Terminate) && Do(n, Terminate).status == Corrupted
    ensures LegalRun(s, FATAL) && Run(s, FATAL).status == Corrupted
  {
    hide Do, Callable, Legal;
    assert [Terminate][1..] == [];
    assert LegalRun(n, [Terminate]) && Run(n, [Terminate]).status == Corrupted;
  }
}
