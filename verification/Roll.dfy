/** Unrolling a sequential circuit into a combinational one (logic/roll.go). */
module Rolls {
  import opened Lits
  import opened Circuits
  import opened Sequentials

  /** Node i has a value of its own at time t: an input, or a latch without initial value
    at time 0. */
  ghost predicate Free(g: seq<Gate>, i: int, t: int) {
    2 <= i < |g| && (g[i].b == NULL || (!IsAnd(g[i]) && g[i].a == NULL && t == 0))
  }

  type DMap = seq<seq<Lit>>   // per variable: its literals at the times 0, 1, ...

  ghost predicate Known(dmap: DMap, i: int, t: int) {
    0 <= i < |dmap| && 0 <= t < |dmap[i]|
  }

  /** The literals are in the circuit u. */
  ghost predicate Placed(u: seq<Gate>, dmap: DMap) {
    forall i, t {:trigger Known(dmap, i, t)} :: Known(dmap, i, t) ==> InCircuit(u, dmap[i][t])
  }

  /** Free values are different inputs of u. */
  ghost predicate Fresh(g: seq<Gate>, u: seq<Gate>, dmap: DMap) {
    && (forall i, t {:trigger Known(dmap, i, t)} :: Known(dmap, i, t) && Free(g, i, t) ==>
          IsPos(dmap[i][t]) && 2 <= Var(dmap[i][t]) < |u| && u[Var(dmap[i][t])] == Gate(NULL, NULL))
    && (forall i, t, j, s {:trigger Known(dmap, i, t), Known(dmap, j, s)} ::
          Known(dmap, i, t) && Known(dmap, j, s) && Free(g, i, t) && Free(g, j, s) && dmap[i][t] == dmap[j][s] ==> i == j && t == s)
  }

  ghost predicate Given(g: seq<Gate>, e: Env, i: int, t: int)
    requires 0 <= i < |g|
  {
    if g[i].b == NULL then (i, t) in e.ins else i in e.init
  }

  /** The valuation v of u gives the free values as e does. */
  ghost predicate Agrees(g: seq<Gate>, u: seq<Gate>, dmap: DMap, v: Valuation, e: Env) {
    forall i, t {:trigger Known(dmap, i, t)} :: Known(dmap, i, t) && Free(g, i, t) ==> Val(u, v, dmap[i][t]) == Given(g, e, i, t)
  }

  /** Every literal recorded has the value that its variable has at its time. */
  ghost predicate Simulates(g: seq<Gate>, u: seq<Gate>, dmap: DMap) {
    forall v, e {:trigger Agrees(g, u, dmap, v, e)} :: Agrees(g, u, dmap, v, e) ==>
      forall i, t {:trigger Known(dmap, i, t)} :: Known(dmap, i, t) ==> Val(u, v, dmap[i][t]) == Sim(g, e, i, t)
  }

  ghost predicate Unrolled(g: seq<Gate>, u: seq<Gate>, dmap: DMap) {
    && |dmap| == |g| && Placed(u, dmap) && Fresh(g, u, dmap) && Simulates(g, u, dmap)
    && (|dmap| > 0 ==> dmap[0] == [])
  }

  /** Nothing is forgotten. */
  ghost predicate Remembers(d0: DMap, d1: DMap) {
    |d0| == |d1| && forall i :: 0 <= i < |d0| ==> d0[i] <= d1[i]
  }

  /** Nothing is recorded beyond time d, nor at time d for a variable above v. */
  ghost predicate Within(d0: DMap, d1: DMap, v: int, d: int) {
    |d0| == |d1| && forall i :: 0 <= i < |d0| ==> |d1[i]| <= |d0[i]| || |d1[i]| <= (if i <= v then d + 1 else d)
  }

  lemma AgreesLess(g: seq<Gate>, u: seq<Gate>, u': seq<Gate>, d0: DMap, d1: DMap, v: Valuation, e: Env)
    requires u <= u' && |d0| == |d1| == |g| && Remembers(d0, d1) && Placed(u, d0) && Agrees(g, u', d1, v, e)
    ensures Agrees(g, u, d0, v, e)
  {
    hide Val;
    Later(u, u');
    forall i, t | Known(d0, i, t) && Free(g, i, t) ensures Val(u, v, d0[i][t]) == Given(g, e, i, t) {
      assert Known(d1, i, t) && d0[i][t] == d1[i][t];
    }
  }

  /** The circuit grows, nothing is recorded. */
  lemma UnrolledLater(g: seq<Gate>, u: seq<Gate>, u': seq<Gate>, dmap: DMap)
    requires Unrolled(g, u, dmap) && u <= u'
    ensures Unrolled(g, u', dmap)
  {
    hide Val, Sim;
    Later(u, u');
    forall v, e | Agrees(g, u', dmap, v, e)
      ensures forall i, t {:trigger Known(dmap, i, t)} :: Known(dmap, i, t) ==> Val(u', v, dmap[i][t]) == Sim(g, e, i, t)
    {
      AgreesLess(g, u, u', dmap, dmap, v, e);
    }
  }

  /** The new literal m for variable x at time t is a new input, if the value is free,
    or has the value of x at that time. */
  ghost predicate Suits(g: seq<Gate>, u: seq<Gate>, dmap: DMap, x: int, t: nat, m: Lit)
    requires 1 <= x < |g|
  {
    if Free(g, x, t) then
      && IsPos(m) && 2 <= Var(m) < |u| && u[Var(m)] == Gate(NULL, NULL)
      && forall i, s {:trigger Known(dmap, i, s)} :: Known(dmap, i, s) && Free(g, i, s) ==> dmap[i][s] != m
    else forall v, e {:trigger Agrees(g, u, dmap, v, e)} :: Agrees(g, u, dmap, v, e) ==> Val(u, v, m) == Sim(g, e, x, t)
  }

  /** d1 is d0 with m recorded for x at time t. */
  ghost predicate IsPut(d0: DMap, d1: DMap, x: int, t: int, m: Lit) {
    && |d0| == |d1| && Known(d1, x, t) && d1[x][t] == m
    && (forall i, s {:trigger Known(d1, i, s)} :: Known(d1, i, s) ==> (i == x && s == t) || (Known(d0, i, s) && d0[i][s] == d1[i][s]))
    && (forall i, s {:trigger Known(d0, i, s)} :: Known(d0, i, s) ==> Known(d1, i, s) && !(i == x && s == t) && d0[i][s] == d1[i][s])
  }

  lemma PutFresh(g: seq<Gate>, u: seq<Gate>, d0: DMap, d1: DMap, x: int, t: nat, m: Lit)
    requires Placed(u, d0) && Fresh(g, u, d0) && 1 <= x < |g| && InCircuit(u, m) && Suits(g, u, d0, x, t, m) && IsPut(d0, d1, x, t, m)
    ensures Placed(u, d1) && Fresh(g, u, d1)
  {
  }

  lemma PutSimulates(g: seq<Gate>, u: seq<Gate>, d0: DMap, d1: DMap, x: int, t: nat, m: Lit)
    requires Simulates(g, u, d0) && 1 <= x < |g| && Suits(g, u, d0, x, t, m) && IsPut(d0, d1, x, t, m)
    ensures Simulates(g, u, d1)
  {
    hide Val, Sim;
    forall v, e | Agrees(g, u, d1, v, e)
      ensures forall i, s {:trigger Known(d1, i, s)} :: Known(d1, i, s) ==> Val(u, v, d1[i][s]) == Sim(g, e, i, s)
    {
      assert Agrees(g, u, d0, v, e);
      if Free(g, x, t) {
        SimFree(g, e, x, t);
      }
    }
  }

  /** The literal m is recorded for variable x at the next time. */
  lemma Record(g: seq<Gate>, u: seq<Gate>, dmap: DMap, x: int, m: Lit)
    requires Unrolled(g, u, dmap) && 1 <= x < |g| && InCircuit(u, m) && Suits(g, u, dmap, x, |dmap[x]|, m)
    ensures Unrolled(g, u, dmap[x := dmap[x] + [m]]) && Remembers(dmap, dmap[x := dmap[x] + [m]])
  {
    hide Placed, Fresh, Simulates, Suits;
    var d1 := dmap[x := dmap[x] + [m]];
    assert IsPut(dmap, d1, x, |dmap[x]|, m);
    PutFresh(g, u, dmap, d1, x, |dmap[x]|, m);
    PutSimulates(g, u, dmap, d1, x, |dmap[x]|, m);
  }

  lemma SimFree(g: seq<Gate>, e: Env, x: int, t: nat)
    requires Free(g, x, t)
    ensures Sim(g, e, x, t) == Given(g, e, x, t)
  {
  }

  /** The literal recorded for m at time t. */
  function LitOf(dmap: DMap, m: Lit, t: int): Lit
    requires Known(dmap, Var(m), t)
  {
    if IsPos(m) then dmap[Var(m)][t] else Not(dmap[Var(m)][t])
  }

  lemma LitOfSim(g: seq<Gate>, u: seq<Gate>, dmap: DMap, m: Lit, t: nat)
    requires Unrolled(g, u, dmap) && Known(dmap, Var(m), t)
    ensures InCircuit(u, LitOf(dmap, m, t))
    ensures forall v, e {:trigger Agrees(g, u, dmap, v, e)} :: Agrees(g, u, dmap, v, e) ==> Val(u, v, LitOf(dmap, m, t)) == SimLit(g, e, m, t)
  {
  }

  lemma SuitsOne(g: seq<Gate>, u: seq<Gate>, dmap: DMap, t: nat)
    requires |g| >= 2 && WellFormed(u)
    ensures Suits(g, u, dmap, 1, t, T) && InCircuit(u, T)
  {
  }

  /** A new input for a free value. */
  lemma SuitsNew(g: seq<Gate>, u: seq<Gate>, dmap: DMap, x: int, t: nat)
    requires Unrolled(g, u, dmap) && Free(g, x, t) && |u| >= 2
    ensures var u' := u + [Gate(NULL, NULL)];
      Unrolled(g, u', dmap) && Suits(g, u', dmap, x, t, 2 * |u|) && InCircuit(u', 2 * |u|)
  {
    var u' := u + [Gate(NULL, NULL)];
    UnrolledLater(g, u, u', dmap);
    hide Val, Sim, Simulates, Fresh;
  }

  /** The initial value of a latch. */
  lemma SuitsInit(g: seq<Gate>, u: seq<Gate>, dmap: DMap, x: int)
    requires SeqOk(g) && WellFormed(u) && IsLatch(g, x) && g[x].a != NULL
    ensures Suits(g, u, dmap, x, 0, g[x].a) && InCircuit(u, g[x].a)
  {
  }

  /** The value of a latch is that of its next state one step before. */
  lemma SuitsLatch(g: seq<Gate>, u: seq<Gate>, dmap: DMap, x: int, t: nat)
    requires SeqOk(g) && IsLatch(g, x) && t > 0 && Unrolled(g, u, dmap) && Known(dmap, Var(g[x].b), t - 1)
    ensures Suits(g, u, dmap, x, t, LitOf(dmap, g[x].b, t - 1)) && InCircuit(u, LitOf(dmap, g[x].b, t - 1))
  {
  }

  /** The value of a gate is that of its operands at the same time. */
  lemma SuitsAnd(g: seq<Gate>, u: seq<Gate>, dmap: DMap, x: int, t: nat)
    requires SeqOk(g) && WellFormed(u) && NoTwins(u) && 2 <= x < |g| && IsAnd(g[x]) && Unrolled(g, u, dmap)
    requires Known(dmap, Var(g[x].a), t) && Known(dmap, Var(g[x].b), t)
    ensures var a, b := LitOf(dmap, g[x].a, t), LitOf(dmap, g[x].b, t);
      && InCircuit(u, a) && InCircuit(u, b) && u <= AndNodes(u, a, b) && Unrolled(g, AndNodes(u, a, b), dmap)
      && Suits(g, AndNodes(u, a, b), dmap, x, t, AndLit(u, a, b)) && InCircuit(AndNodes(u, a, b), AndLit(u, a, b))
  {
    var a, b := LitOf(dmap, g[x].a, t), LitOf(dmap, g[x].b, t);
    LitOfSim(g, u, dmap, g[x].a, t);
    LitOfSim(g, u, dmap, g[x].b, t);
    AndAll(u, a, b);
    var u' := AndNodes(u, a, b);
    hide Val, AndNodes, AndLit, Unrolled;
    UnrolledLater(g, u, u', dmap);
    UnrolledPlaced(g, u, dmap);
    forall v, e | Agrees(g, u', dmap, v, e) ensures Val(u', v, AndLit(u, a, b)) == Sim(g, e, x, t) {
      AgreesLess(g, u, u', dmap, dmap, v, e);
    }
  }

  lemma UnrolledPlaced(g: seq<Gate>, u: seq<Gate>, dmap: DMap)
    requires Unrolled(g, u, dmap)
    ensures |dmap| == |g| && Placed(u, dmap) && Remembers(dmap, dmap)
  {
  }

  lemma OperandsBefore(g: seq<Gate>, v: int)
    requires SeqOk(g) && 2 <= v < |g| && IsAnd(g[v])
    ensures InCircuit(g, g[v].a) && InCircuit(g, g[v].b) && Var(g[v].a) < v && Var(g[v].b) < v
  {
  }

  class Roll {
    const s: S
    const c: C
    var dmap: DMap
    ghost const G: seq<Gate>   // the sequential circuit, which is to stay as it is

    ghost predicate Valid()
      reads this, s, s.c, c
    {
      && s.Valid() && c.Valid() && s.c != c && s.c.G() == G && Unrolled(G, c.G(), dmap)
    }

    constructor (s0: S)
      requires s0.Valid()
      ensures Valid() && s == s0 && G == s0.c.G() && dmap == seq(|G|, _ => []) && fresh(c)
    {
      s := s0;
      var n := |s0.c.nodes|;
      var u := new C(n * 10);
      c := u;
      dmap := seq(n, _ => []);
      G := s0.c.G();
      new;
      assert forall i, t {:trigger Known(dmap, i, t)} :: !Known(dmap, i, t);
      hide Val, Sim, WellFormed, NoTwins, Linked, Hashed, SeqOk;
    }

    /** Records m for variable v. */
    method put(v: int, m: Lit)
      requires Valid() && 1 <= v < |dmap| && InCircuit(c.G(), m) && Suits(G, c.G(), dmap, v, |dmap[v]|, m)
      modifies this`dmap
      ensures Valid() && dmap == old(dmap)[v := old(dmap)[v] + [m]] && Remembers(old(dmap), dmap)
    {
      hide Suits, Unrolled, WellFormed, NoTwins, Linked, Hashed, SeqOk;
      UnrolledSize(G, c.G(), dmap);
      Record(G, c.G(), dmap, v, m);
      dmap := dmap[v := dmap[v] + [m]];
    }

    /** The literal of the unrolled circuit for m at time d. */
    method At(m: Lit, d: nat) returns (r: Lit)
      requires Valid() && InCircuit(G, m)
      modifies this`dmap, c
      ensures Valid() && Known(dmap, Var(m), d) && r == LitOf(dmap, m, d)
      ensures old(c.G()) <= c.G() && Remembers(old(dmap), dmap) && Within(old(dmap), dmap, Var(m), d)
      ensures Known(old(dmap), Var(m), d) ==> dmap == old(dmap) && c.G() == old(c.G())
      decreases d, Var(m), 2
    {
      hide Unrolled, WellFormed, NoTwins, Linked, Hashed, SeqOk;
      UnrolledSize(G, c.G(), dmap);
      ghost var d0 := dmap;
      var v := Var(m);
      if |dmap[v]| < d {
        var _ := At(m, d - 1);
      }
      var res;
      if |dmap[v]| > d {
        res := dmap[v][d];
      } else {
        res := build(v, d);
      }
      r := if IsPos(m) then res else Not(res);
    }

    /** Makes the literal for variable v at time d, the next one to be recorded. */
    method build(v: int, d: nat) returns (res: Lit)
      requires Valid() && 1 <= v < |G| && |dmap| == |G| && |dmap[v]| == d
      modifies this`dmap, c
      ensures Valid() && Known(dmap, v, d) && res == dmap[v][d]
      ensures old(c.G()) <= c.G() && Remembers(old(dmap), dmap) && Within(old(dmap), dmap, v, d)
      decreases d, v, 1
    {
      hide Unrolled, WellFormed, NoTwins, Linked, Hashed, SeqOk, Suits, AndNodes, AndLit;
      SizeTwo(s.c.G(), c.G());
      ghost var d0 := dmap;
      if v == 1 {
        res := T;
        SuitsOne(G, c.G(), dmap, d);
        put(v, res);
        return;
      }
      var n := s.c.nodes[v];
      assert G[v] == Gate(n.a, n.b);
      if n.b == NULL {
        SuitsNew(G, c.G(), dmap, v, d);
        res := c.Lit();
        put(v, res);
        return;
      }
      if d == 0 {
        if n.a == NULL {
          SuitsNew(G, c.G(), dmap, v, d);
          res := c.Lit();
          put(v, res);
          return;
        }
        if n.a == F {
          SuitsInit(G, c.G(), dmap, v);
          res := F;
          put(v, res);
          return;
        }
        if n.a == T {
          SuitsInit(G, c.G(), dmap, v);
          res := T;
          put(v, res);
          return;
        }
      }
      if n.a == F || n.a == T || n.a == NULL {
        LatchParts(G, v);
        res := At(n.b, d - 1);
        SuitsLatch(G, c.G(), dmap, v, d);
        EarlierKept(d0, dmap, Var(n.b), d - 1, v, d);
        ghost var d1 := dmap;
        put(v, res);
        ThenPut(d0, d1, dmap, v, d, res);
        return;
      }
      GateNode(G, v);
      res := buildAnd(v, d);
    }

    method buildAnd(v: int, d: nat) returns (res: Lit)
      requires Valid() && 2 <= v < |G| && |dmap| == |G| && |dmap[v]| == d && IsAnd(G[v])
      modifies this`dmap, c
      ensures Valid() && Known(dmap, v, d) && res == dmap[v][d]
      ensures old(c.G()) <= c.G() && Remembers(old(dmap), dmap) && Within(old(dmap), dmap, v, d)
      decreases d, v, 0
    {
      hide Unrolled, WellFormed, NoTwins, Linked, Hashed, SeqOk, Suits, AndNodes, AndLit, Remembers, Within;
      ghost var d0 := dmap;
      var n := s.c.nodes[v];
      assert G[v] == Gate(n.a, n.b);
      OperandsBefore(G, v);
      var a := At(n.a, d);
      ghost var d1 := dmap;
      var b := At(n.b, d);
      BothKept(d0, d1, dmap, Var(n.a), Var(n.b), v, d);
      KnownLater(d1, dmap, Var(n.a), d);
      SuitsAnd(G, c.G(), dmap, v, d);
      res := c.And(a, b);
      ghost var d2 := dmap;
      put(v, res);
      ThenPut(d0, d2, dmap, v, d, res);
    }
  }

  /** Recording what comes before v at time d adds nothing for v at time d. */
  lemma EarlierKept(d0: DMap, d1: DMap, v1: int, t1: int, v: int, d: int)
    requires Remembers(d0, d1) && Within(d0, d1, v1, t1) && (t1 < d || (t1 == d && v1 < v)) && 0 <= v < |d0| && |d0[v]| == d
    ensures |d1| == |d0| && |d1[v]| == d && Within(d0, d1, v, d)
  {
  }

  lemma BothKept(d0: DMap, d1: DMap, d2: DMap, v1: int, v2: int, v: int, d: int)
    requires Remembers(d0, d1) && Within(d0, d1, v1, d) && Remembers(d1, d2) && Within(d1, d2, v2, d) && v1 < v && v2 < v
    requires 0 <= v < |d0| && |d0[v]| == d
    ensures |d2| == |d0| && |d2[v]| == d && Within(d0, d2, v, d) && Remembers(d0, d2)
  {
  }

  lemma KnownLater(d0: DMap, d1: DMap, i: int, t: int)
    requires Remembers(d0, d1) && Known(d0, i, t)
    ensures Known(d1, i, t) && d1[i][t] == d0[i][t]
  {
  }

  lemma ThenPut(d0: DMap, d1: DMap, d2: DMap, v: int, d: int, m: Lit)
    requires Remembers(d0, d1) && Within(d0, d1, v, d) && 0 <= v < |d1| && |d1[v]| == d && d2 == d1[v := d1[v] + [m]]
    ensures Remembers(d0, d2) && Within(d0, d2, v, d) && Known(d2, v, d) && d2[v][d] == m
  {
  }

  lemma SizeTwo(g: seq<Gate>, u: seq<Gate>)
    requires WellFormed(g) && WellFormed(u)
    ensures |g| >= 2 && |u| >= 2
  {
  }

  lemma GateNode(g: seq<Gate>, v: int)
    requires SeqOk(g) && 2 <= v < |g| && !IsInit(g[v].a)
    ensures IsAnd(g[v])
  {
  }

  lemma UnrolledSize(g: seq<Gate>, u: seq<Gate>, dmap: DMap)
    requires Unrolled(g, u, dmap)
    ensures |dmap| == |g|
  {
  }

  /** What At returns means the value of m at time d, whatever the environment and
    whatever else has been unrolled before or since. */
  lemma RollSimulates(g: seq<Gate>, u: seq<Gate>, dmap: DMap, m: Lit, d: nat, v: Valuation, e: Env)
    requires Unrolled(g, u, dmap) && Known(dmap, Var(m), d) && Agrees(g, u, dmap, v, e)
    ensures Val(u, v, LitOf(dmap, m, d)) == SimLit(g, e, m, d)
  {
  }

  /** The valuation of the unrolled circuit that gives its inputs the values of e. */
  ghost function Inputs(g: seq<Gate>, dmap: DMap, e: Env): Valuation
    requires |dmap| == |g|
  {
    iset k: int | exists i, t {:trigger Known(dmap, i, t)} :: Known(dmap, i, t) && Free(g, i, t) && Given(g, e, i, t) && dmap[i][t] == 2 * k
  }

  /** Every environment can be given to the unrolled circuit, because free values are
    different inputs. */
  lemma EnvFits(g: seq<Gate>, u: seq<Gate>, dmap: DMap, e: Env)
    requires Unrolled(g, u, dmap)
    ensures Agrees(g, u, dmap, Inputs(g, dmap, e), e)
  {
  }
}
