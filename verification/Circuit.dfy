/** And-inverter circuits with structural hashing (logic/c.go). */
module Circuits {
  import opened Lits

  // the constants: the literals of variable 1
  const T: Lit := 2
  const F: Lit := 3

  /** The operands of a node; inputs have none, and latches, which are no gates either,
    keep an initial value and a next state here (logic/s.go). */
  datatype Gate = Gate(a: Lit, b: Lit)

  predicate IsAnd(x: Gate) {
    x.a >= 4
  }

  /** Gates come after their operands, which are different variables in ascending order. */
  ghost predicate WellFormed(g: seq<Gate>) {
    && |g| >= 2 && g[0] == g[1] == Gate(NULL, NULL)
    && forall i :: 0 <= i < |g| && IsAnd(g[i]) ==> g[i].a < g[i].b && Var(g[i].a) != Var(g[i].b) && Var(g[i].b) < i
  }

  /** No two gates have the same operands. */
  ghost predicate NoTwins(g: seq<Gate>) {
    forall i, j :: 0 <= i < j < |g| && IsAnd(g[i]) ==> g[i] != g[j]
  }

  ghost predicate InCircuit(g: seq<Gate>, m: Lit) {
    2 <= m < 2 * |g|
  }

  /** The value of variable i when the inputs and latches have the values v. */
  ghost function ValVar(g: seq<Gate>, v: Valuation, i: int): bool {
    if i == 1 then true
    else if 0 <= i < |g| && IsAnd(g[i]) && 0 <= Var(g[i].a) < i && 0 <= Var(g[i].b) < i then
      (ValVar(g, v, Var(g[i].a)) == IsPos(g[i].a)) && (ValVar(g, v, Var(g[i].b)) == IsPos(g[i].b))
    else i in v
  }

  ghost function Val(g: seq<Gate>, v: Valuation, m: Lit): bool {
    ValVar(g, v, Var(m)) == IsPos(m)
  }

  /** Adding nodes changes no value. */
  lemma {:induction false} ValPrefix(g: seq<Gate>, g': seq<Gate>, v: Valuation, i: int)
    requires g <= g' && i < |g|
    ensures ValVar(g', v, i) == ValVar(g, v, i)
    decreases i
  {
    if i > 1 {
      assert g'[i] == g[i];
      if IsAnd(g[i]) && 0 <= Var(g[i].a) < i && 0 <= Var(g[i].b) < i {
        ValPrefix(g, g', v, Var(g[i].a));
        ValPrefix(g, g', v, Var(g[i].b));
      }
    }
  }

  lemma ValNot(g: seq<Gate>, v: Valuation, m: Lit)
    ensures Val(g, v, Not(m)) == !Val(g, v, m)
  {
  }

  lemma ValConst(g: seq<Gate>, v: Valuation)
    ensures Val(g, v, T) && !Val(g, v, F)
  {
  }

  // ---- conjunction by linear search ----

  /** The first node with the operands x, or -1. */
  function Find(g: seq<Gate>, x: Gate): int {
    if |g| == 0 then -1
    else
      var r := Find(g[..|g| - 1], x);
      if r >= 0 then r else if g[|g| - 1] == x then |g| - 1 else -1
  }

  lemma {:induction false} FindFirst(g: seq<Gate>, x: Gate)
    ensures -1 <= Find(g, x) < |g|
    ensures Find(g, x) >= 0 ==> g[Find(g, x)] == x && forall i :: 0 <= i < Find(g, x) ==> g[i] != x
    ensures Find(g, x) == -1 ==> forall i :: 0 <= i < |g| ==> g[i] != x
  {
    if |g| > 0 {
      FindFirst(g[..|g| - 1], x);
    }
  }

  /** The operands in ascending order. */
  function Ordered(a: Lit, b: Lit): Gate {
    if a > b then Gate(b, a) else Gate(a, b)
  }

  function Trivial(a: Lit, b: Lit): bool {
    a == b || a == Not(b) || Ordered(a, b).a == F || Ordered(a, b).a == T
  }

  /** The literal for a and b. */
  function AndLit(g: seq<Gate>, a: Lit, b: Lit): Lit {
    if a == b then a
    else if a == Not(b) then F
    else
      var x := Ordered(a, b);
      if x.a == F then F
      else if x.a == T then x.b
      else if Find(g, x) >= 0 then 2 * Find(g, x) else 2 * |g|
  }

  /** The nodes afterwards. */
  function AndNodes(g: seq<Gate>, a: Lit, b: Lit): seq<Gate> {
    if Trivial(a, b) || Find(g, Ordered(a, b)) >= 0 then g else g + [Ordered(a, b)]
  }

  lemma AndKeeps(g: seq<Gate>, a: Lit, b: Lit)
    requires WellFormed(g) && NoTwins(g) && InCircuit(g, a) && InCircuit(g, b)
    ensures var g' := AndNodes(g, a, b); WellFormed(g') && NoTwins(g') && g <= g' && InCircuit(g', AndLit(g, a, b))
  {
    FindFirst(g, Ordered(a, b));
  }

  /** The literal means the conjunction. */
  lemma AndMeans(g: seq<Gate>, a: Lit, b: Lit, v: Valuation)
    requires WellFormed(g) && InCircuit(g, a) && InCircuit(g, b)
    ensures Val(AndNodes(g, a, b), v, AndLit(g, a, b)) == (Val(g, v, a) && Val(g, v, b))
  {
    ValNot(g, v, b);
    ValConst(g, v);
    var x := Ordered(a, b);
    FindFirst(g, x);
    if !Trivial(a, b) {
      var g' := AndNodes(g, a, b);
      var i := Var(AndLit(g, a, b));
      assert g'[i] == x && IsAnd(x) && 0 <= Var(x.a) < i && 0 <= Var(x.b) < i;
      ValPrefix(g, g', v, Var(a));
      ValPrefix(g, g', v, Var(b));
    }
  }

  // ---- the hash table ----

  datatype Node = Node(a: Lit, b: Lit, n: int)

  ghost function Ops(nodes: seq<Node>): (g: seq<Gate>)
    ensures |g| == |nodes| && forall i :: 0 <= i < |nodes| ==> g[i] == Gate(nodes[i].a, nodes[i].b)
  {
    seq(|nodes|, i requires 0 <= i < |nodes| => Gate(nodes[i].a, nodes[i].b))
  }

  // arithmetic of 32-bit words; ^x is 2^32 - 1 - x
  const WORD: int := 0x1_0000_0000

  function StrashCode(a: Lit, b: Lit): (c: nat)
  {
    (16777619 * (WORD - 1 - b % WORD) * 16777619 * (WORD - 1 - a % WORD)) % WORD
  }

  function Bucket(x: Gate, cap: int): (k: int)
    requires cap > 0
    ensures 0 <= k < cap
  {
    StrashCode(x.a, x.b) % cap
  }

  /** The chain that begins at node s comes to node i. */
  ghost predicate Reach(nodes: seq<Node>, s: int, i: int)
    decreases s
  {
    s == i || (0 < s < |nodes| && 0 <= nodes[s].n < s && Reach(nodes, nodes[s].n, i))
  }

  /** Links lead to earlier nodes. */
  ghost predicate Linked(nodes: seq<Node>) {
    |nodes| > 0 && nodes[0].n == 0 && forall s :: 0 < s < |nodes| ==> 0 <= nodes[s].n < s
  }

  /** The gates among the first n nodes are found from their buckets. */
  ghost predicate Hashed(nodes: seq<Node>, strash: seq<int>, n: int) {
    && |strash| > 0 && n <= |nodes| && (forall k :: 0 <= k < |strash| ==> 0 <= strash[k] < n || strash[k] == 0)
    && forall i :: 0 <= i < n && IsAnd(Gate(nodes[i].a, nodes[i].b)) ==>
         Reach(nodes, strash[Bucket(Gate(nodes[i].a, nodes[i].b), |strash|)], i)
  }

  /** Chains do not depend on later nodes. */
  lemma {:induction false} ReachSame(nodes: seq<Node>, nodes': seq<Node>, s: int, i: int, n: int)
    requires 0 <= s < n <= |nodes| && n <= |nodes'| && nodes[..n] == nodes'[..n]
    requires Reach(nodes, s, i)
    ensures Reach(nodes', s, i)
    decreases s
  {
    if s != i {
      assert nodes[s] == nodes[..n][s] == nodes'[..n][s] == nodes'[s];
      ReachSame(nodes, nodes', nodes[s].n, i, n);
    }
  }

  /** A gate is put in front of the chain of its bucket. */
  lemma HashInsert(nodes: seq<Node>, strash: seq<int>, i: int, x: Gate)
    requires Linked(nodes) && 0 < i < |nodes| && Hashed(nodes, strash, i) && Gate(nodes[i].a, nodes[i].b) == x
    ensures var k := Bucket(x, |strash|);
      var nodes' := nodes[i := Node(x.a, x.b, strash[k])]; var strash' := strash[k := i];
      Linked(nodes') && Hashed(nodes', strash', i + 1) && Ops(nodes') == Ops(nodes)
  {
    hide Bucket;
    var k := Bucket(x, |strash|);
    var nodes' := nodes[i := Node(x.a, x.b, strash[k])];
    var strash' := strash[k := i];
    assert nodes'[..i] == nodes[..i];
    forall j | 0 <= j < i + 1 && IsAnd(Gate(nodes'[j].a, nodes'[j].b))
      ensures Reach(nodes', strash'[Bucket(Gate(nodes'[j].a, nodes'[j].b), |strash'|)], j)
    {
      if j < i {
        var h := strash[Bucket(Gate(nodes[j].a, nodes[j].b), |strash|)];
        assert Reach(nodes, h, j);
        ReachSame(nodes, nodes', h, j, i);
      }
    }
  }

  lemma HashSkip(nodes: seq<Node>, strash: seq<int>, i: int)
    requires 0 <= i < |nodes| && Hashed(nodes, strash, i) && !IsAnd(Gate(nodes[i].a, nodes[i].b))
    ensures Hashed(nodes, strash, i + 1)
  {
  }

  /** A new node at the end. */
  lemma HashAppend(nodes: seq<Node>, strash: seq<int>, x: Node)
    requires Linked(nodes) && Hashed(nodes, strash, |nodes|) && x.n == 0
    ensures Linked(nodes + [x]) && Hashed(nodes + [x], strash, |nodes|)
  {
    var nodes' := nodes + [x];
    assert nodes'[..|nodes|] == nodes[..|nodes|];
    forall j | 0 <= j < |nodes| && IsAnd(Gate(nodes'[j].a, nodes'[j].b))
      ensures Reach(nodes', strash[Bucket(Gate(nodes'[j].a, nodes'[j].b), |strash|)], j)
    {
      var h := strash[Bucket(Gate(nodes[j].a, nodes[j].b), |strash|)];
      assert Reach(nodes, h, j);
      ReachSame(nodes, nodes', h, j, |nodes|);
    }
  }

  lemma HashNone(nodes: seq<Node>, cap: int)
    requires WellFormed(Ops(nodes)) && cap > 0
    ensures Hashed(nodes, seq(cap, _ => 0), 0) && |nodes| > 0 && nodes[0].a == NULL
  {
  }

  class C {
    var nodes: seq<Node>
    var cap: int             // room for nodes
    var strash: seq<int>     // per bucket: the first node of its chain, or 0

    ghost function G(): seq<Gate>
      reads this
    {
      Ops(nodes)
    }

    ghost predicate Valid()
      reads this
    {
      && WellFormed(G()) && NoTwins(G()) && |nodes| <= cap == |strash|
      && Linked(nodes) && Hashed(nodes, strash, |nodes|)
    }

    constructor (capHint: int)
      ensures Valid() && G() == [Gate(NULL, NULL), Gate(NULL, NULL)]
    {
      cap := if capHint < 2 then 2 else capHint;
      nodes := [Node(NULL, NULL, 0), Node(NULL, NULL, 0)];
      strash := seq(if capHint < 2 then 2 else capHint, _ => 0);
    }

    /** Doubles the room and hashes all gates anew. */
    method grow()
      requires Valid()
      modifies this
      ensures Valid() && G() == old(G()) && cap == 2 * old(cap)
    {
      hide Bucket, Ops, WellFormed, NoTwins;
      ghost var g := G();
      var newCap := cap * 2;
      strash := seq(newCap, _ => 0);
      HashNone(nodes, newCap);
      for i := 0 to |nodes|
        invariant Linked(nodes) && Hashed(nodes, strash, i) && |strash| == newCap && G() == g && |nodes| <= cap == old(cap)
        invariant |nodes| > 0 && nodes[0].a == NULL
      {
        var n := nodes[i];
        var x := Gate(n.a, n.b);
        if IsAnd(x) {
          HashInsert(nodes, strash, i, x);
          var k := Bucket(x, newCap);
          nodes := nodes[i := n.(n := strash[k])];
          strash := strash[k := i];
        } else {
          HashSkip(nodes, strash, i);
        }
      }
      cap := newCap;
    }

    /** Appends a node without operands. */
    method newNode() returns (id: int)
      requires Valid()
      modifies this
      ensures Valid() && id == |old(nodes)| && G() == old(G()) + [Gate(NULL, NULL)] && cap > 0 && Hashed(nodes, strash, id)
    {
      hide Bucket, WellFormed, NoTwins, Linked, Hashed;
      if |nodes| == cap {
        grow();
      }
      id := |nodes|;
      AppendInput(nodes, strash);
      nodes := nodes + [Node(NULL, NULL, 0)];
    }

    /** A new input. */
    method Lit() returns (m: Lit)
      requires Valid()
      modifies this
      ensures Valid() && m == 2 * |old(nodes)| && G() == old(G()) + [Gate(NULL, NULL)]
    {
      var id := newNode();
      m := 2 * id;
    }

    /** The literal for a and b, found by walking one chain. */
    method And(a0: Lit, b0: Lit) returns (r: Lit)
      requires Valid() && InCircuit(G(), a0) && InCircuit(G(), b0)
      modifies this
      ensures Valid() && G() == AndNodes(old(G()), a0, b0) && r == AndLit(old(G()), a0, b0)
    {
      hide Bucket, WellFormed, NoTwins, Linked, Hashed, Reach, Find;
      var a, b := a0, b0;
      if a == b {
        return a;
      }
      if a == Not(b) {
        return F;
      }
      if a > b {
        a, b := b, a;
      }
      if a == F {
        return F;
      }
      if a == T {
        return b;
      }
      ghost var x := Gate(a, b);
      ghost var g := G();
      var i := lookup(a, b);
      if i >= 0 {
        return 2 * i;
      }
      AndKeeps(g, a0, b0);
      var j := newNode();
      var k := Bucket(Gate(a, b), cap);
      NewGate(nodes, strash, g, x);
      nodes := nodes[j := Node(a, b, strash[k])];
      strash := strash[k := j];
      r := 2 * j;
    }

    method Or(a: Lit, b: Lit) returns (r: Lit)
      requires Valid() && InCircuit(G(), a) && InCircuit(G(), b)
      modifies this
      ensures Grew(old(G()), r) && forall v :: Val(G(), v, r) == (Val(old(G()), v, a) || Val(old(G()), v, b))
    {
      hide WellFormed, NoTwins, Linked, Hashed, AndNodes, AndLit, Val, Not;
      NotIn(G(), a);
      NotIn(G(), b);
      AndAll(G(), Not(a), Not(b));
      var nor := And(Not(a), Not(b));
      r := Not(nor);
      NotIn(G(), nor);
    }

    method Implies(a: Lit, b: Lit) returns (r: Lit)
      requires Valid() && InCircuit(G(), a) && InCircuit(G(), b)
      modifies this
      ensures Grew(old(G()), r) && forall v :: Val(G(), v, r) == (Val(old(G()), v, a) ==> Val(old(G()), v, b))
    {
      hide WellFormed, NoTwins, Linked, Hashed, Val, Not;
      NotIn(G(), a);
      r := Or(Not(a), b);
    }

    method Xor(a: Lit, b: Lit) returns (r: Lit)
      requires Valid() && InCircuit(G(), a) && InCircuit(G(), b)
      modifies this
      ensures Grew(old(G()), r) && forall v :: Val(G(), v, r) == (Val(old(G()), v, a) != Val(old(G()), v, b))
    {
      hide WellFormed, NoTwins, Linked, Hashed, AndNodes, AndLit, Val, Not;
      ghost var g := G();
      NotIn(g, a);
      NotIn(g, b);
      AndAll(g, a, Not(b));
      var x := And(a, Not(b));
      ghost var g1 := G();
      Later(g, g1);
      AndAll(g1, Not(a), b);
      var y := And(Not(a), b);
      Later(g1, G());
      r := Or(x, y);
    }

    /** if i then t else e */
    method Choice(i: Lit, t: Lit, e: Lit) returns (r: Lit)
      requires Valid() && InCircuit(G(), i) && InCircuit(G(), t) && InCircuit(G(), e)
      modifies this
      ensures Grew(old(G()), r)
      ensures forall v :: Val(G(), v, r) == if Val(old(G()), v, i) then Val(old(G()), v, t) else Val(old(G()), v, e)
    {
      hide WellFormed, NoTwins, Linked, Hashed, AndNodes, AndLit, Val, Not;
      ghost var g := G();
      NotIn(g, i);
      AndAll(g, i, t);
      var x := And(i, t);
      ghost var g1 := G();
      Later(g, g1);
      AndAll(g1, Not(i), e);
      var y := And(Not(i), e);
      Later(g1, G());
      r := Or(x, y);
    }

    method Ands(ms: seq<Lit>) returns (r: Lit)
      requires Valid() && forall m :: m in ms ==> InCircuit(G(), m)
      modifies this
      ensures Grew(old(G()), r) && forall v :: Val(G(), v, r) == forall m :: m in ms ==> Val(old(G()), v, m)
    {
      hide WellFormed, NoTwins, Linked, Hashed, AndNodes, AndLit, Val;
      r := T;
      ghost var g := G();
      ConstAll(g);
      for i := 0 to |ms|
        invariant Grew(g, r) && forall v :: Val(G(), v, r) == forall m :: m in ms[..i] ==> Val(g, v, m)
      {
        ghost var g1 := G();
        assert ms[i] in ms && ms[..i + 1] == ms[..i] + [ms[i]];
        Later(g, g1);
        AndAll(g1, r, ms[i]);
        r := And(r, ms[i]);
      }
      assert ms[..|ms|] == ms;
    }

    method Ors(ms: seq<Lit>) returns (r: Lit)
      requires Valid() && forall m :: m in ms ==> InCircuit(G(), m)
      modifies this
      ensures Grew(old(G()), r) && forall v :: Val(G(), v, r) == exists m :: m in ms && Val(old(G()), v, m)
    {
      hide WellFormed, NoTwins, Linked, Hashed, Val;
      r := F;
      ghost var g := G();
      ConstAll(g);
      for i := 0 to |ms|
        invariant Grew(g, r) && forall v :: Val(G(), v, r) == exists m :: m in ms[..i] && Val(g, v, m)
      {
        ghost var g1 := G();
        assert ms[i] in ms && ms[..i + 1] == ms[..i] + [ms[i]];
        Later(g, g1);
        r := Or(r, ms[i]);
      }
      assert ms[..|ms|] == ms;
    }

    /** The circuit has only grown since it was g, and has the literal r. */
    ghost predicate Grew(g: seq<Gate>, r: Lit)
      reads this
    {
      Valid() && g <= G() && InCircuit(G(), r)
    }

    /** Fills in the values of constant and gates; vs holds those of the inputs and latches. */
    method Eval(vs: array<bool>)
      requires Valid() && vs.Length >= |nodes|
      modifies vs
      ensures forall i :: 1 <= i < |nodes| ==> vs[i] == ValVar(G(), Given(old(vs[..])), i)
      ensures forall i :: |nodes| <= i < vs.Length ==> vs[i] == old(vs[i])
    {
      hide NoTwins, Linked, Hashed;
      ghost var v := Given(vs[..]);
      ghost var g := G();
      vs[1] := true;
      for i := 2 to |nodes|
        invariant forall k :: 1 <= k < i ==> vs[k] == ValVar(g, v, k)
        invariant forall k :: i <= k < vs.Length ==> vs[k] == old(vs[k])
      {
        var n := nodes[i];
        assert g[i] == Gate(n.a, n.b);
        if n.a >= 4 {
          var va, vb := vs[Var(n.a)], vs[Var(n.b)];
          if !IsPos(n.a) {
            va := !va;
          }
          if !IsPos(n.b) {
            vb := !vb;
          }
          vs[i] := va && vb;
        }
      }
    }

    /** The node with the operands a and b, or -1. */
    method lookup(a: Lit, b: Lit) returns (i: int)
      requires Valid() && IsAnd(Gate(a, b))
      ensures i == Find(G(), Gate(a, b))
    {
      hide Bucket, NoTwins, Find;
      var si := strash[Bucket(Gate(a, b), cap)];
      FindFirst(G(), Gate(a, b));
      ghost var t := Find(G(), Gate(a, b));
      while true
        invariant 0 <= si < |nodes| && (t >= 0 ==> Reach(nodes, si, t))
        decreases si
      {
        var n := nodes[si];
        if n.a == a && n.b == b {
          OneTwin(G(), si, t);
          return si;
        }
        if n.n == 0 {
          return -1;
        }
        si := n.n;
      }
    }
  }

  lemma NotIn(g: seq<Gate>, m: Lit)
    ensures InCircuit(g, Not(m)) <==> InCircuit(g, m)
    ensures forall v :: Val(g, v, Not(m)) == !Val(g, v, m)
  {
  }

  lemma ConstAll(g: seq<Gate>)
    requires WellFormed(g)
    ensures forall v :: Val(g, v, T) && !Val(g, v, F)
    ensures InCircuit(g, T) && InCircuit(g, F)
  {
  }

  lemma AndAll(g: seq<Gate>, a: Lit, b: Lit)
    requires WellFormed(g) && NoTwins(g) && InCircuit(g, a) && InCircuit(g, b)
    ensures var g' := AndNodes(g, a, b); g <= g' && InCircuit(g', AndLit(g, a, b))
    ensures forall v :: Val(AndNodes(g, a, b), v, AndLit(g, a, b)) == (Val(g, v, a) && Val(g, v, b))
  {
    AndKeeps(g, a, b);
    forall v ensures Val(AndNodes(g, a, b), v, AndLit(g, a, b)) == (Val(g, v, a) && Val(g, v, b)) { AndMeans(g, a, b, v); }
  }

  /** What a literal means does not change when the circuit grows. */
  lemma Later(g: seq<Gate>, g': seq<Gate>)
    requires g <= g'
    ensures forall m :: InCircuit(g, m) ==> InCircuit(g', m)
    ensures forall v, m {:trigger Val(g', v, m)} :: InCircuit(g, m) ==> Val(g', v, m) == Val(g, v, m)
  {
    forall v, m | InCircuit(g, m) ensures Val(g', v, m) == Val(g, v, m) { ValPrefix(g, g', v, Var(m)); }
  }

  /** The variables with the value true. */
  ghost function Given(vs: seq<bool>): Valuation {
    iset i: int | 0 <= i < |vs| && vs[i]
  }

  lemma OneTwin(g: seq<Gate>, i: int, j: int)
    requires NoTwins(g) && 0 <= i < |g| && 0 <= j < |g| && IsAnd(g[i]) && g[i] == g[j]
    ensures i == j
  {
  }

  lemma AppendInput(nodes: seq<Node>, strash: seq<int>)
    requires WellFormed(Ops(nodes)) && NoTwins(Ops(nodes)) && Linked(nodes) && Hashed(nodes, strash, |nodes|)
    ensures var nodes' := nodes + [Node(NULL, NULL, 0)];
      && WellFormed(Ops(nodes')) && NoTwins(Ops(nodes')) && Linked(nodes') && Hashed(nodes', strash, |nodes'|)
      && Ops(nodes') == Ops(nodes) + [Gate(NULL, NULL)] && Hashed(nodes', strash, |nodes|)
  {
    var nodes' := nodes + [Node(NULL, NULL, 0)];
    assert Ops(nodes') == Ops(nodes) + [Gate(NULL, NULL)];
    HashAppend(nodes, strash, Node(NULL, NULL, 0));
    HashSkip(nodes', strash, |nodes|);
  }

  /** The new node becomes a gate. */
  lemma NewGate(nodes: seq<Node>, strash: seq<int>, g: seq<Gate>, x: Gate)
    requires |g| > 0 && Ops(nodes) == g + [Gate(NULL, NULL)] && Linked(nodes) && Hashed(nodes, strash, |g|)
    ensures var k := Bucket(x, |strash|); var nodes' := nodes[|g| := Node(x.a, x.b, strash[k])]; var strash' := strash[k := |g|];
      Linked(nodes') && Hashed(nodes', strash', |nodes'|) && Ops(nodes') == g + [x] && |nodes'| == |g| + 1
  {
    hide Bucket;
    var j := |g|;
    var nodes1 := nodes[j := Node(x.a, x.b, 0)];
    assert nodes1[..j] == nodes[..j];
    forall i | 0 <= i < j && IsAnd(Gate(nodes1[i].a, nodes1[i].b))
      ensures Reach(nodes1, strash[Bucket(Gate(nodes1[i].a, nodes1[i].b), |strash|)], i)
    {
      var h := strash[Bucket(Gate(nodes[i].a, nodes[i].b), |strash|)];
      assert Reach(nodes, h, i);
      ReachSame(nodes, nodes1, h, i, j);
    }
    HashInsert(nodes1, strash, j, x);
    var k := Bucket(x, |strash|);
    var nodes' := nodes[j := Node(x.a, x.b, strash[k])];
    assert nodes' == nodes1[j := Node(x.a, x.b, strash[k])];
    assert Ops(nodes') == g + [x] by {
      assert forall i :: 0 <= i < j ==> Ops(nodes)[i] == g[i];
    }
  }
}
