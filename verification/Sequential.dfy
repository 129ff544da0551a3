/** Circuits with memory elements (logic/s.go) and what they compute over time. */
module Sequentials {
  import opened Lits
  import opened Circuits

  predicate IsLatch(g: seq<Gate>, i: int) {
    2 <= i < |g| && !IsAnd(g[i]) && g[i].b != NULL
  }

  predicate IsInit(m: Lit) {
    m == NULL || m == T || m == F
  }

  /** Nodes that are no gates are inputs, or latches with initial value and next state. */
  ghost predicate SeqOk(g: seq<Gate>) {
    && WellFormed(g)
    && forall i :: 2 <= i < |g| && !IsAnd(g[i]) ==> IsInit(g[i].a) && (if g[i].b == NULL then g[i].a == NULL else InCircuit(g, g[i].b))
  }

  /** Values from outside: of the inputs at each time, and of the latches without
    initial value at time 0. */
  datatype Env = Env(ins: iset<(int, int)>, init: iset<int>)

  /** The value of variable i at time d. */
  ghost function Sim(g: seq<Gate>, e: Env, i: int, d: nat): bool
    decreases d, i
  {
    if i == 1 then true
    else if !(0 <= i < |g|) then false
    else if g[i].b == NULL then (i, d) in e.ins
    else if IsAnd(g[i]) then
      && 0 <= Var(g[i].a) < i && 0 <= Var(g[i].b) < i
      && (Sim(g, e, Var(g[i].a), d) == IsPos(g[i].a)) && (Sim(g, e, Var(g[i].b), d) == IsPos(g[i].b))
    else if d == 0 then (if g[i].a == NULL then i in e.init else g[i].a == T)
    else Sim(g, e, Var(g[i].b), d - 1) == IsPos(g[i].b)
  }

  ghost function SimLit(g: seq<Gate>, e: Env, m: Lit, d: nat): bool {
    Sim(g, e, Var(m), d) == IsPos(m)
  }

  datatype SNodeType = SInput | SAnd | SLatch | SConst

  lemma SeqAppend(g: seq<Gate>)
    requires SeqOk(g)
    ensures SeqOk(g + [Gate(NULL, NULL)]) && |g| >= 2
  {
  }

  lemma LatchParts(g: seq<Gate>, i: int)
    requires SeqOk(g) && IsLatch(g, i)
    ensures IsInit(g[i].a) && InCircuit(g, g[i].b)
  {
  }

  /** Chains depend on the links only. */
  lemma {:induction false} ReachLinks(nodes: seq<Node>, nodes': seq<Node>, s: int, i: int)
    requires |nodes| == |nodes'| && (forall k :: 0 <= k < |nodes| ==> nodes[k].n == nodes'[k].n) && Reach(nodes, s, i)
    ensures Reach(nodes', s, i)
    decreases s
  {
    if s != i {
      ReachLinks(nodes, nodes', nodes[s].n, i);
    }
  }

  /** Changing a node that is no gate, and does not become one, leaves all else as it was. */
  lemma SetNode(nodes: seq<Node>, strash: seq<int>, v: int, x: Gate)
    requires SeqOk(Ops(nodes)) && NoTwins(Ops(nodes)) && Linked(nodes) && Hashed(nodes, strash, |nodes|)
    requires 2 <= v < |nodes| && !IsAnd(Ops(nodes)[v]) && IsInit(x.a) && InCircuit(Ops(nodes), x.b)
    ensures var nodes' := nodes[v := Node(x.a, x.b, nodes[v].n)];
      && SeqOk(Ops(nodes')) && NoTwins(Ops(nodes')) && Linked(nodes') && Hashed(nodes', strash, |nodes'|)
      && Ops(nodes') == Ops(nodes)[v := x] && WellFormed(Ops(nodes'))
  {
    hide Bucket, Reach;
    var nodes' := nodes[v := Node(x.a, x.b, nodes[v].n)];
    assert Ops(nodes') == Ops(nodes)[v := x];
    SetSeq(Ops(nodes), v, x);
    forall i | 0 <= i < |nodes'| && IsAnd(Gate(nodes'[i].a, nodes'[i].b))
      ensures Reach(nodes', strash[Bucket(Gate(nodes'[i].a, nodes'[i].b), |strash|)], i)
    {
      ReachLinks(nodes, nodes', strash[Bucket(Gate(nodes[i].a, nodes[i].b), |strash|)], i);
    }
  }

  lemma SetSeq(g: seq<Gate>, v: int, x: Gate)
    requires SeqOk(g) && NoTwins(g) && 2 <= v < |g| && !IsAnd(g[v]) && IsInit(x.a) && InCircuit(g, x.b)
    ensures SeqOk(g[v := x]) && NoTwins(g[v := x])
  {
  }

  class S {
    const c: C
    var Latches: seq<Lit>

    ghost predicate Valid()
      reads this, c
    {
      c.Valid() && SeqOk(c.G()) && forall m :: m in Latches ==> IsPos(m) && IsLatch(c.G(), Var(m))
    }

    constructor (capHint: int)
      ensures Valid() && Latches == [] && c.G() == [Gate(NULL, NULL), Gate(NULL, NULL)] && fresh(c)
    {
      c := new C(capHint);
      Latches := [];
    }

    /** A new memory element; until SetNext it keeps its value. */
    method Latch(init: Lit) returns (m: Lit)
      requires Valid() && IsInit(init)
      modifies this, c
      ensures Valid() && m == 2 * |old(c.G())| && c.G() == old(c.G()) + [Gate(init, m)] && Latches == old(Latches) + [m]
    {
      hide WellFormed, NoTwins, Linked, Hashed, SeqOk;
      ghost var g := c.G();
      var i := c.newNode();
      SeqAppend(g);
      SetNode(c.nodes, c.strash, i, Gate(init, 2 * i));
      assert c.G()[i := Gate(init, 2 * i)] == g + [Gate(init, 2 * i)];
      c.nodes := c.nodes[i := c.nodes[i].(a := init, b := 2 * i)];
      m := 2 * i;
      Latches := Latches + [m];
    }

    function Next(m: Lit): (r: Lit)
      reads this, c
      requires Valid() && IsLatch(c.G(), Var(m))
      ensures r == c.G()[Var(m)].b && InCircuit(c.G(), r)
    {
      LatchParts(c.G(), Var(m));
      c.nodes[Var(m)].b
    }

    function Init(m: Lit): (r: Lit)
      reads this, c
      requires Valid() && IsLatch(c.G(), Var(m))
      ensures r == c.G()[Var(m)].a && IsInit(r)
    {
      LatchParts(c.G(), Var(m));
      c.nodes[Var(m)].a
    }

    method SetNext(m: Lit, nxt: Lit)
      requires Valid() && IsLatch(c.G(), Var(m)) && InCircuit(c.G(), nxt)
      modifies c
      ensures Valid() && c.G() == old(c.G())[Var(m) := Gate(old(c.G())[Var(m)].a, nxt)]
    {
      hide WellFormed, NoTwins, Linked, Hashed, SeqOk;
      var v := Var(m);
      LatchParts(c.G(), v);
      assert c.G()[v] == Gate(c.nodes[v].a, c.nodes[v].b);
      SetNode(c.nodes, c.strash, v, Gate(c.nodes[v].a, nxt));
      c.nodes := c.nodes[v := c.nodes[v].(b := nxt)];
    }

    method SetInit(m: Lit, init: Lit)
      requires Valid() && IsLatch(c.G(), Var(m)) && IsInit(init)
      modifies c
      ensures Valid() && c.G() == old(c.G())[Var(m) := Gate(init, old(c.G())[Var(m)].b)]
    {
      hide WellFormed, NoTwins, Linked, Hashed, SeqOk;
      var v := Var(m);
      LatchParts(c.G(), v);
      assert c.G()[v] == Gate(c.nodes[v].a, c.nodes[v].b);
      SetNode(c.nodes, c.strash, v, Gate(init, c.nodes[v].b));
      c.nodes := c.nodes[v := c.nodes[v].(a := init)];
    }

    function Type(m: Lit): (t: SNodeType)
      reads this, c
      requires Valid() && InCircuit(c.G(), m)
      ensures t == SAnd <==> IsAnd(c.G()[Var(m)])
      ensures t == SLatch <==> IsLatch(c.G(), Var(m))
      ensures t == SConst <==> Var(m) == 1
    {
      var v := Var(m);
      assert c.G()[v] == Gate(c.nodes[v].a, c.nodes[v].b);
      assert c.G()[1] == Gate(c.nodes[1].a, c.nodes[1].b);
      if v == Var(T) then SConst
      else if c.nodes[v].a == NULL && c.nodes[v].b == NULL then SInput
      else if Var(c.nodes[v].a) == Var(T) || c.nodes[v].a == NULL then SLatch
      else SAnd
    }
  }
}
