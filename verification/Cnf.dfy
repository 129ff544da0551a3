/** Circuits as clauses, all at once or as far as they have not been added yet
  (logic/c.go:43-152). */
module Tseitin {
  import opened Lits
  import opened Circuits

  /** Takes clauses literal by literal, each ended by the null literal (inter.Adder). */
  class Adder {
    var Cur: seq<Lit>
    var Clauses: seq<seq<Lit>>

    constructor ()
      ensures Cur == [] && Clauses == []
    {
      Cur, Clauses := [], [];
    }

    method Add(m: Lit)
      modifies this
      ensures m == NULL ==> Cur == [] && Clauses == old(Clauses) + [old(Cur)]
      ensures m != NULL ==> Cur == old(Cur) + [m] && Clauses == old(Clauses)
    {
      if m == NULL {
        Clauses := Clauses + [Cur];
        Cur := [];
      } else {
        Cur := Cur + [m];
      }
    }
  }

  /** The clauses for one node: that the constant is true, or that a gate is the
    conjunction of its operands. */
  function NodeClauses(i: int, x: Gate): seq<seq<Lit>> {
    if i == 1 then [[T]] else [[Not(2 * i), x.a], [Not(2 * i), x.b], [2 * i, Not(x.a), Not(x.b)]]
  }

  ghost predicate InNodes(g: seq<Gate>, order: seq<int>) {
    forall k :: 0 <= k < |order| ==> 0 <= order[k] < |g|
  }

  /** The clauses for the nodes in order. */
  ghost function Emitted(g: seq<Gate>, order: seq<int>): seq<seq<Lit>>
    requires InNodes(g, order)
  {
    if |order| == 0 then []
    else
      var i := order[|order| - 1];
      Emitted(g, order[..|order| - 1]) + NodeClauses(i, g[i])
  }

  ghost predicate SatAll(w: Valuation, cs: seq<seq<Lit>>) {
    forall c :: c in cs ==> Sat(w, c)
  }

  /** The valuation treats node i as what it is. */
  ghost predicate Respects(g: seq<Gate>, w: Valuation, i: int)
    requires 0 <= i < |g|
  {
    if i == 1 then Holds(w, T) else Holds(w, 2 * i) == (Holds(w, g[i].a) && Holds(w, g[i].b))
  }

  lemma NodeMeans(g: seq<Gate>, w: Valuation, i: int)
    requires 0 <= i < |g|
    ensures SatAll(w, NodeClauses(i, g[i])) <==> Respects(g, w, i)
  {
    var x := g[i];
    HoldsNot(w, 2 * i);
    HoldsNot(w, x.a);
    HoldsNot(w, x.b);
    hide Holds, Not;
    if i == 1 {
      SatOne(w, T);
      assert SatAll(w, [[T]]) <==> Sat(w, [T]);
    } else {
      var c, d, e := [Not(2 * i), x.a], [Not(2 * i), x.b], [2 * i, Not(x.a), Not(x.b)];
      SatTwo(w, Not(2 * i), x.a);
      SatTwo(w, Not(2 * i), x.b);
      SatThree(w, 2 * i, Not(x.a), Not(x.b));
      assert forall k :: k in [c, d, e] <==> k == c || k == d || k == e;
    }
  }

  lemma SatOne(w: Valuation, a: Lit)
    ensures Sat(w, [a]) <==> Holds(w, a)
  {
  }

  lemma SatTwo(w: Valuation, a: Lit, b: Lit)
    ensures Sat(w, [a, b]) <==> Holds(w, a) || Holds(w, b)
  {
  }

  lemma SatThree(w: Valuation, a: Lit, b: Lit, c: Lit)
    ensures Sat(w, [a, b, c]) <==> Holds(w, a) || Holds(w, b) || Holds(w, c)
  {
  }

  /** The clauses hold exactly if all nodes in order are respected. */
  lemma {:induction false} EmittedMeans(g: seq<Gate>, order: seq<int>, w: Valuation)
    requires InNodes(g, order)
    ensures SatAll(w, Emitted(g, order)) <==> forall k :: 0 <= k < |order| ==> Respects(g, w, order[k])
  {
    hide Respects, NodeClauses;
    if |order| > 0 {
      var rest, i := order[..|order| - 1], order[|order| - 1];
      EmittedMeans(g, rest, w);
      NodeMeans(g, w, i);
      assert forall c :: c in Emitted(g, order) <==> c in Emitted(g, rest) || c in NodeClauses(i, g[i]);
    }
  }

  lemma {:induction false} EmittedLater(g: seq<Gate>, g': seq<Gate>, order: seq<int>)
    requires g <= g' && InNodes(g, order)
    ensures InNodes(g', order)
    ensures Emitted(g', order) == Emitted(g, order)
  {
    if |order| > 0 {
      EmittedLater(g, g', order[..|order| - 1]);
    }
  }

  /** The clauses of an order come piece by piece. */
  lemma {:induction false} EmittedSplit(g: seq<Gate>, o: seq<int>, p: seq<int>)
    requires InNodes(g, o) && InNodes(g, p)
    ensures InNodes(g, o + p) && Emitted(g, o + p) == Emitted(g, o) + Emitted(g, p)
  {
    if |p| == 0 {
      assert o + p == o;
    } else {
      assert (o + p)[..|o + p| - 1] == o + p[..|p| - 1];
      EmittedSplit(g, o, p[..|p| - 1]);
    }
  }

  /** The clauses for the nodes added to the order o0. */
  ghost function Delta(g: seq<Gate>, o0: seq<int>, o1: seq<int>): seq<seq<Lit>>
    requires InNodes(g, o1) && |o0| <= |o1|
  {
    Emitted(g, o1[|o0|..])
  }

  lemma DeltaNone(g: seq<Gate>, o: seq<int>)
    requires InNodes(g, o)
    ensures Delta(g, o, o) == []
  {
  }

  /** What was emitted before and what was added are all the clauses of the order. */
  lemma DeltaRest(g: seq<Gate>, o0: seq<int>, o1: seq<int>)
    requires InNodes(g, o1) && o0 <= o1
    ensures InNodes(g, o0) && Emitted(g, o1) == Emitted(g, o0) + Delta(g, o0, o1)
  {
    assert o1 == o0 + o1[|o0|..];
    EmittedSplit(g, o0, o1[|o0|..]);
  }

  lemma DeltaTrans(g: seq<Gate>, o0: seq<int>, o1: seq<int>, o2: seq<int>)
    requires InNodes(g, o2) && o0 <= o1 <= o2
    ensures InNodes(g, o1) && Delta(g, o0, o2) == Delta(g, o0, o1) + Delta(g, o1, o2)
  {
    assert o2[|o0|..] == o1[|o0|..] + o2[|o1|..];
    EmittedSplit(g, o1[|o0|..], o2[|o1|..]);
  }

  lemma DeltaOne(g: seq<Gate>, o: seq<int>, i: int)
    requires InNodes(g, o) && 0 <= i < |g|
    ensures InNodes(g, o + [i]) && Delta(g, o, o + [i]) == NodeClauses(i, g[i])
  {
    assert (o + [i])[|o|..] == [i] && [i][..0] == [] && [i][0] == i;
    assert Emitted(g, [i]) == Emitted(g, []) + NodeClauses(i, g[i]);
  }

  /** Node i is below node j, or j itself. */
  ghost predicate Below(g: seq<Gate>, j: int, i: int)
    decreases j
  {
    i == j || (0 < j < |g| && IsAnd(g[j]) && 0 <= Var(g[j].a) < j && 0 <= Var(g[j].b) < j
               && (Below(g, Var(g[j].a), i) || Below(g, Var(g[j].b), i)))
  }

  lemma {:induction false} BelowLess(g: seq<Gate>, j: int, i: int)
    requires Below(g, j, i)
    ensures i <= j
    decreases j
  {
    if i != j {
      if Below(g, Var(g[j].a), i) {
        BelowLess(g, Var(g[j].a), i);
      } else {
        BelowLess(g, Var(g[j].b), i);
      }
    }
  }

  /** The constant and the gates that are marked are those in order, each once, and what
    is below a marked gate is marked. */
  ghost predicate Exact(g: seq<Gate>, mark: seq<int>, order: seq<int>) {
    && |mark| <= |g| && (forall k :: 0 <= k < |order| ==> 1 <= order[k] < |mark|)
    && (forall i :: 1 <= i < |mark| ==> (i in order <==> mark[i] == 1 && (i == 1 || IsAnd(g[i]))))
    && (forall j, k :: 0 <= j < k < |order| ==> order[j] != order[k])
    && (forall i :: 1 <= i < |mark| && mark[i] == 1 && IsAnd(g[i]) ==>
          0 <= Var(g[i].a) < |mark| && 0 <= Var(g[i].b) < |mark| && mark[Var(g[i].a)] == 1 && mark[Var(g[i].b)] == 1)
  }

  // ---- what the clauses say of the circuit ----

  /** A valuation that satisfies the clauses gives every marked node its value. */
  lemma {:induction false} CnfDetermines(g: seq<Gate>, mark: seq<int>, order: seq<int>, w: Valuation, i: int)
    requires WellFormed(g) && Exact(g, mark, order) && 1 in order && SatAll(w, Emitted(g, order))
    requires 1 <= i < |mark| && mark[i] == 1
    ensures i in w <==> ValVar(g, w, i)
    decreases i
  {
    hide SatAll, Emitted;
    OrderRespects(g, order, w, 1);
    if i > 1 && IsAnd(g[i]) {
      OrderRespects(g, order, w, i);
      CnfDetermines(g, mark, order, w, Var(g[i].a));
      CnfDetermines(g, mark, order, w, Var(g[i].b));
    }
  }

  lemma OrderRespects(g: seq<Gate>, order: seq<int>, w: Valuation, i: int)
    requires InNodes(g, order) && i in order && SatAll(w, Emitted(g, order))
    ensures 0 <= i < |g| && Respects(g, w, i)
  {
    hide SatAll, Emitted, Respects;
    EmittedMeans(g, order, w);
    var k :| 0 <= k < |order| && order[k] == i;
  }

  /** The valuation that gives every node its value. */
  ghost function Extended(g: seq<Gate>, v: Valuation): Valuation {
    iset i: int | ValVar(g, v, i)
  }

  /** Every valuation of inputs and latches extends to one that satisfies the clauses. */
  lemma CnfExtends(g: seq<Gate>, mark: seq<int>, order: seq<int>, v: Valuation)
    requires WellFormed(g) && Exact(g, mark, order)
    ensures SatAll(Extended(g, v), Emitted(g, order))
    ensures forall i :: 2 <= i < |g| && !IsAnd(g[i]) ==> (i in Extended(g, v) <==> i in v)
  {
    var w := Extended(g, v);
    hide SatAll, Emitted;
    EmittedMeans(g, order, w);
    forall k | 0 <= k < |order| ensures Respects(g, w, order[k]) {
      assert order[k] in order;
      ExtendedAt(g, v, order[k]);
    }
  }

  lemma ExtendedAt(g: seq<Gate>, v: Valuation, i: int)
    requires WellFormed(g) && 1 <= i < |g| && (i == 1 || IsAnd(g[i]))
    ensures Respects(g, Extended(g, v), i)
  {
  }

  /** The clauses say exactly that the constant is true and every gate marked is the
    conjunction of its operands. */
  lemma CnfExact(g: seq<Gate>, mark: seq<int>, order: seq<int>, w: Valuation)
    requires WellFormed(g) && Exact(g, mark, order) && 1 in order
    ensures SatAll(w, Emitted(g, order)) <==>
      Holds(w, T) && forall i :: 2 <= i < |mark| && mark[i] == 1 && IsAnd(g[i]) ==> Respects(g, w, i)
  {
    hide Respects, SatAll, Emitted, Holds;
    EmittedMeans(g, order, w);
    RespectsOne(g, w);
    if Holds(w, T) && forall i :: 2 <= i < |mark| && mark[i] == 1 && IsAnd(g[i]) ==> Respects(g, w, i) {
      forall k | 0 <= k < |order| ensures Respects(g, w, order[k]) {
        assert order[k] in order;
      }
    }
    if SatAll(w, Emitted(g, order)) {
      OrderRespects(g, order, w, 1);
      forall i | 2 <= i < |mark| && mark[i] == 1 && IsAnd(g[i]) ensures Respects(g, w, i) {
        OrderRespects(g, order, w, i);
      }
    }
  }

  /** The clauses of the whole circuit hold exactly if the constant is true and every
    gate has the value of the and of its operands. */
  lemma WholeExact(g: seq<Gate>, w: Valuation)
    requires WellFormed(g)
    ensures SatAll(w, Emitted(g, AllNodes(g, |g|))) <==>
      Holds(w, T) && forall i :: 2 <= i < |g| && IsAnd(g[i]) ==> Respects(g, w, i)
  {
    hide Respects, SatAll, Emitted, Holds;
    var order := AllNodes(g, |g|);
    EmittedMeans(g, order, w);
    RespectsOne(g, w);
    if Holds(w, T) && forall i :: 2 <= i < |g| && IsAnd(g[i]) ==> Respects(g, w, i) {
      forall k | 0 <= k < |order| ensures Respects(g, w, order[k]) {
        assert order[k] in order;
      }
    }
    if SatAll(w, Emitted(g, order)) {
      assert 1 in order;
      OrderRespects(g, order, w, 1);
      forall i | 2 <= i < |g| && IsAnd(g[i]) ensures Respects(g, w, i) {
        OrderRespects(g, order, w, i);
      }
    }
  }

  lemma RespectsOne(g: seq<Gate>, w: Valuation)
    requires |g| >= 2
    ensures Respects(g, w, 1) <==> Holds(w, T)
  {
  }

  // ---- emitting ----

  method addAnd(dst: Adder, g: Lit, a: Lit, b: Lit)
    requires dst.Cur == [] && 2 <= g && 2 <= a && 2 <= b
    modifies dst
    ensures dst.Cur == [] && dst.Clauses == old(dst.Clauses) + [[Not(g), a], [Not(g), b], [g, Not(a), Not(b)]]
  {
    ghost var cs := dst.Clauses;
    dst.Add(Not(g));
    dst.Add(a);
    assert dst.Cur == [Not(g), a];
    dst.Add(NULL);
    dst.Add(Not(g));
    dst.Add(b);
    assert dst.Cur == [Not(g), b];
    dst.Add(NULL);
    dst.Add(g);
    dst.Add(Not(a));
    dst.Add(Not(b));
    assert dst.Cur == [g, Not(a), Not(b)];
    dst.Add(NULL);
    assert dst.Clauses == cs + [[Not(g), a]] + [[Not(g), b]] + [[g, Not(a), Not(b)]];
  }

  /** The marks are those of the order, which is being extended from o0; dst has got the
    clauses for the nodes added. */
  ghost predicate Emitting(dst: Adder, was: seq<seq<Lit>>, g: seq<Gate>, mark: seq<int>, o0: seq<int>, order: seq<int>)
    reads dst
  {
    && dst.Cur == [] && Exact(g, mark, order) && |mark| == |g| && o0 <= order && InNodes(g, order)
    && dst.Clauses == was + Delta(g, o0, order)
  }

  ghost predicate MarksKept(m0: seq<int>, m1: seq<int>) {
    |m0| == |m1| && forall i :: 0 <= i < |m0| && m0[i] == 1 ==> m1[i] == 1
  }

  /** The nodes added to the order are below node j. */
  ghost predicate OnlyBelow(g: seq<Gate>, o0: seq<int>, o1: seq<int>, j: int) {
    o0 <= o1 && forall k :: |o0| <= k < |o1| ==> Below(g, j, o1[k])
  }

  lemma KeptRefl(m: seq<int>)
    ensures MarksKept(m, m)
  {
  }

  lemma MarkPlain(g: seq<Gate>, mark: seq<int>, order: seq<int>, v: int)
    requires Exact(g, mark, order) && 2 <= v < |mark| && !IsAnd(g[v])
    ensures Exact(g, mark[v := 1], order) && MarksKept(mark, mark[v := 1])
  {
  }

  lemma Unmarked(g: seq<Gate>, mark: seq<int>, order: seq<int>, v: int)
    requires Exact(g, mark, order) && 2 <= v < |mark| && IsAnd(g[v])
    ensures v in order <==> mark[v] == 1
  {
  }

  /** After the operands of v have been dealt with, v has not. */
  lemma VisitedBelow(g: seq<Gate>, m0: seq<int>, m1: seq<int>, m2: seq<int>, o0: seq<int>, o1: seq<int>, o2: seq<int>, v: int)
    requires WellFormed(g) && 2 <= v < |g| && IsAnd(g[v]) && v !in o0
    requires |m2| == |g| && MarksKept(m0, m1) && MarksKept(m1, m2)
    requires OnlyBelow(g, o0, o1, Var(g[v].a)) && OnlyBelow(g, o1, o2, Var(g[v].b))
    requires m1[Var(g[v].a)] == 1
    ensures OnlyBelow(g, o0, o2, v) && MarksKept(m0, m2) && m2[Var(g[v].a)] == 1 && v !in o2
  {
    forall k | |o0| <= k < |o2| ensures Below(g, v, o2[k]) && o2[k] < v {
      if k < |o1| {
        assert o1[k] == o2[k];
        BelowLess(g, Var(g[v].a), o2[k]);
      } else {
        BelowLess(g, Var(g[v].b), o2[k]);
      }
    }
    hide Below;
    forall k | 0 <= k < |o2| ensures o2[k] != v {
      if k < |o0| {
        assert o0[k] == o2[k] && o0[k] in o0;
      }
    }
  }

  lemma MarkGate(g: seq<Gate>, mark: seq<int>, order: seq<int>, o0: seq<int>, v: int)
    requires Exact(g, mark, order) && 2 <= v < |mark| && IsAnd(g[v]) && v !in order
    requires 0 <= Var(g[v].a) < |mark| && 0 <= Var(g[v].b) < |mark| && mark[Var(g[v].a)] == 1 && mark[Var(g[v].b)] == 1
    requires OnlyBelow(g, o0, order, v)
    ensures Exact(g, mark[v := 1], order + [v]) && MarksKept(mark, mark[v := 1]) && OnlyBelow(g, o0, order + [v], v)
  {
    hide Below;
    assert (order + [v])[..|order|] == order;
    assert forall i :: i in order + [v] <==> i in order || i == v;
    assert Below(g, v, v) by { BelowSelf(g, v); }
  }

  lemma BelowSelf(g: seq<Gate>, v: int)
    ensures Below(g, v, v)
  {
  }

  lemma ExactNodes(g: seq<Gate>, mark: seq<int>, order: seq<int>)
    requires Exact(g, mark, order)
    ensures InNodes(g, order)
  {
  }

  /** Emits what is below m and not marked. */
  method vis(c: C, dst: Adder, m: Lit, mark0: seq<int>, ttl0: int, ghost order0: seq<int>)
    returns (mark: seq<int>, ttl: int, ghost order: seq<int>)
    requires c.Valid() && InCircuit(c.G(), m) && Exact(c.G(), mark0, order0) && |mark0| == |c.G()| && mark0[1] == 1 && dst.Cur == []
    modifies dst
    ensures Emitting(dst, old(dst.Clauses), c.G(), mark, order0, order) && MarksKept(mark0, mark) && mark[Var(m)] == 1
    ensures OnlyBelow(c.G(), order0, order, Var(m)) && ttl - ttl0 == |order| - |order0|
    decreases Var(m)
  {
    hide Linked, Hashed, NoTwins, Delta, Below, Exact, InNodes;
    mark, ttl, order := mark0, ttl0, order0;
    KeptRefl(mark);
    ghost var g := c.G();
    ExactNodes(g, mark, order);
    DeltaNone(g, order);
    var v := Var(m);
    if mark[v] == 1 {
      return;
    }
    var n := c.nodes[v];
    assert g[v] == Gate(n.a, n.b);
    if n.a < 4 {
      MarkPlain(g, mark, order, v);
      mark := mark[v := 1];
      return;
    }
    Unmarked(g, mark, order, v);
    mark, ttl, order := vis(c, dst, n.a, mark, ttl, order);
    ghost var mark1, order1 := mark, order;
    mark, ttl, order := vis(c, dst, n.b, mark, ttl, order);
    VisitedBelow(g, mark0, mark1, mark, order0, order1, order, v);
    MarkGate(g, mark, order, order0, v);
    DeltaTrans(g, order0, order1, order);
    DeltaOne(g, order, v);
    DeltaTrans(g, order0, order, order + [v]);
    addAnd(dst, 2 * v, n.a, n.b);
    mark := mark[v := 1];
    ttl := ttl + 1;
    order := order + [v];
  }

  /** The marks for a circuit that may have grown. */
  lemma Regrown(g: seq<Gate>, mark: seq<int>, order: seq<int>, mark': seq<int>)
    requires Exact(g, mark, order) && |mark| <= |mark'| == |g|
    requires forall i :: 0 <= i < |mark'| ==> mark'[i] == if i < |mark| then mark[i] else 0
    ensures Exact(g, mark', order)
  {
  }

  lemma MarkOne(g: seq<Gate>, mark: seq<int>, order: seq<int>)
    requires WellFormed(g) && |mark| == |g| && Exact(g, mark, order) && mark[1] != 1
    ensures Exact(g, mark[1 := 1], order + [1]) && NodeClauses(1, g[1]) == [[T]]
  {
  }

  /** What was marked still is; there may be more marks. */
  ghost predicate Grown(m0: seq<int>, m1: seq<int>) {
    |m0| <= |m1| && forall i :: 0 <= i < |m0| && m0[i] == 1 ==> m1[i] == 1
  }

  ghost predicate RootsMarked(mark: seq<int>, roots: seq<Lit>) {
    forall m :: m in roots ==> 0 <= Var(m) < |mark| && mark[Var(m)] == 1
  }

  ghost predicate UnderRoot(g: seq<Gate>, roots: seq<Lit>, i: int) {
    exists m :: m in roots && Below(g, Var(m), i)
  }

  /** When the circuit has grown, what was emitted for it still stands. */
  lemma ExactLater(g: seq<Gate>, g': seq<Gate>, mark: seq<int>, order: seq<int>)
    requires g <= g' && Exact(g, mark, order)
    ensures InNodes(g, order) && Exact(g', mark, order) && Emitted(g', order) == Emitted(g, order)
  {
    assert forall i :: 0 <= i < |g| ==> g'[i] == g[i];
    EmittedLater(g, g', order);
  }

  /** Adds to dst what is below the roots and has not been added before; mark0 says what
    has.  Returns the marks to be used next time and how many nodes were added. */
  method CnfSince(c: C, dst: Adder, mark0: seq<int>, roots: seq<Lit>, ghost order0: seq<int>)
    returns (mark: seq<int>, ttl: int, ghost order: seq<int>)
    requires c.Valid() && forall m :: m in roots ==> InCircuit(c.G(), m)
    requires Exact(c.G(), mark0, order0) && dst.Cur == []
    modifies dst
    ensures Emitting(dst, old(dst.Clauses), c.G(), mark, order0, order) && mark[1] == 1 && ttl == |order| - |order0|
    ensures Grown(mark0, mark) && RootsMarked(mark, roots)
    ensures forall k :: |order0| <= k < |order| ==> order[k] == 1 || UnderRoot(c.G(), roots, order[k])
  {
    hide Linked, Hashed, NoTwins, Delta, Below, Exact, InNodes, NodeClauses;
    ghost var g, was := c.G(), dst.Clauses;
    ExactSize(g, mark0, order0);
    mark := mark0 + seq(|c.nodes| - |mark0|, _ => 0);
    Regrown(g, mark0, order0, mark);
    ttl, order := 0, order0;
    ExactNodes(g, mark, order);
    DeltaNone(g, order);
    if mark[1] != 1 {
      MarkOne(g, mark, order);
      DeltaOne(g, order, 1);
      dst.Add(T);
      assert dst.Cur == [T];
      dst.Add(NULL);
      mark := mark[1 := 1];
      ttl := ttl + 1;
      order := order + [1];
    }
    assert roots[..0] == [];
    MarkedOne(g, mark, order);
    for i := 0 to |roots|
      invariant Emitting(dst, was, g, mark, order0, order) && mark[1] == 1 && ttl == |order| - |order0|
      invariant Grown(mark0, mark) && RootsMarked(mark, roots[..i])
      invariant forall k :: |order0| <= k < |order| ==> order[k] == 1 || UnderRoot(g, roots, order[k])
    {
      assert roots[i] in roots && roots[..i + 1] == roots[..i] + [roots[i]];
      ghost var order1 := order;
      mark, ttl, order := vis(c, dst, roots[i], mark, ttl, order);
      DeltaTrans(g, order0, order1, order);
      forall k | |order1| <= k < |order| ensures UnderRoot(g, roots, order[k]) {
        assert Below(g, Var(roots[i]), order[k]);
      }
    }
    assert roots[..|roots|] == roots;
  }

  lemma MarkedOne(g: seq<Gate>, mark: seq<int>, order: seq<int>)
    requires Exact(g, mark, order) && |mark| >= 2
    ensures 1 in order <==> mark[1] == 1
    ensures InNodes(g, order)
  {
  }

  lemma ExactSize(g: seq<Gate>, mark: seq<int>, order: seq<int>)
    requires Exact(g, mark, order)
    ensures |mark| <= |g|
  {
  }

  /** The constant and all gates, in ascending order. */
  ghost function AllNodes(g: seq<Gate>, n: nat): seq<int>
    requires n <= |g|
    ensures InNodes(g, AllNodes(g, n)) && forall i :: i in AllNodes(g, n) <==> 1 <= i < n && (i == 1 || IsAnd(g[i]))
  {
    if n == 0 then []
    else
      var r := AllNodes(g, n - 1);
      if n == 2 || (n > 2 && IsAnd(g[n - 1])) then r + [n - 1] else r
  }

  /** Adds the whole circuit to dst. */
  method ToCnf(c: C, dst: Adder)
    requires c.Valid() && dst.Cur == []
    modifies dst
    ensures dst.Cur == [] && dst.Clauses == old(dst.Clauses) + Emitted(c.G(), AllNodes(c.G(), |c.G()|))
  {
    hide Linked, Hashed, NoTwins, Emitted, AllNodes;
    ghost var g := c.G();
    AllStart(g);
    dst.Add(T);
    assert dst.Cur == [T];
    dst.Add(NULL);
    for i := 1 to |c.nodes|
      invariant dst.Cur == [] && dst.Clauses == old(dst.Clauses) + Emitted(g, AllNodes(g, if i == 1 then 2 else i))
    {
      var n := c.nodes[i];
      assert g[i] == Gate(n.a, n.b);
      if i > 1 { AllNext(g, i); }
      if n.a >= 4 {
        addAnd(dst, 2 * i, n.a, n.b);
      }
    }
  }

  lemma AllStart(g: seq<Gate>)
    requires WellFormed(g)
    ensures Emitted(g, AllNodes(g, 2)) == [[T]] && |g| >= 2
  {
    assert AllNodes(g, 1) == [];
    assert [1][..0] == [];
  }

  lemma AllNext(g: seq<Gate>, i: nat)
    requires WellFormed(g) && 2 <= i < |g|
    ensures Emitted(g, AllNodes(g, i + 1)) == Emitted(g, AllNodes(g, i)) + if IsAnd(g[i]) then NodeClauses(i, g[i]) else []
  {
  }
}
