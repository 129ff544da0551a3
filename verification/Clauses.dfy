/** The stored clauses as a map from location to literals, and the reasons of
  the assigned literals among them (internal/xo/cdb.go, internal/xo/trail.go). */
module Clauses {
  import opened Lits
  import opened Assignment

  type Cls = map<int, seq<Lit>>

  function SetOf(ps: seq<int>): set<int> {
    set p | p in ps
  }

  /** Literals below n, no variable twice. */
  ghost predicate ClauseOk(n: int, c: seq<Lit>) {
    && (forall i :: 0 <= i < |c| ==> 2 <= c[i] < n)
    && (forall i, j :: 0 <= i < j < |c| ==> Var(c[i]) != Var(c[j]))
  }

  ghost predicate ClsOk(n: int, cls: Cls) {
    forall p :: p in cls ==> p > 0 && ClauseOk(n, cls[p])
  }

  /** The clause forces the k-th literal of the trail: it comes first and the
    others are false and were so before. */
  ghost predicate Forces(a: Asn, c: seq<Lit>, k: int)
    requires Sizes(a) && 0 <= k < |a.trail|
  {
    && |c| >= 1 && c[0] == a.trail[k]
    && forall i :: 1 <= i < |c| ==> LitOk(a, c[i]) && a.vals[c[i]] == -1 && a.pos[Var(c[i])] < k
  }

  ghost predicate ReasonsOk(a: Asn, cls: Cls)
    requires Sizes(a)
  {
    forall k :: 0 <= k < |a.trail| && a.why[k] != 0 ==> a.why[k] in cls && Forces(a, cls[a.why[k]], k)
  }

  ghost predicate AllFalse(a: Asn, c: seq<Lit>) {
    forall i :: 0 <= i < |c| ==> LitOk(a, c[i]) && a.vals[c[i]] == -1
  }

  /** Everything about assignment and clauses that holds between any two steps. */
  ghost predicate Core(a: Asn, cls: Cls) {
    AsnOk(a) && ClsOk(|a.vals|, cls) && ReasonsOk(a, cls)
  }

  /** May m be assigned with reason c?  0 stands for a decision. */
  ghost predicate CanAssign(a: Asn, cls: Cls, m: Lit, c: int) {
    && LitOk(a, m) && a.vals[m] == 0
    && (c != 0 ==> c in cls && |cls[c]| >= 1 && cls[c][0] == m && AllFalse(a, cls[c][1..]))
  }

  lemma AssignForces(a: Asn, m: Lit, c: int, d: seq<Lit>, k: int)
    requires AsnOk(a) && LitOk(a, m) && a.vals[m] == 0
    requires 0 <= k < |a.trail| && Forces(a, d, k)
    ensures Forces(Assigned(a, m, c), d, k)
  {
    hide Var, Not, IsPos, Mk, NotesOk, LevOk;
    LitFacts();
    assert a.vals[Not(m)] == 0;
  }

  lemma AssignCore(a: Asn, cls: Cls, m: Lit, c: int)
    requires Core(a, cls) && CanAssign(a, cls, m, c)
    ensures Core(Assigned(a, m, c), cls)
  {
    AssignKeeps(a, m, c);
    var b := Assigned(a, m, c);
    forall k | 0 <= k < |b.trail| && b.why[k] != 0 ensures b.why[k] in cls && Forces(b, cls[b.why[k]], k) {
      if k < |a.trail| {
        AssignForces(a, m, c, cls[a.why[k]], k);
      } else {
        AssignNew(a, m, c, cls[c]);
      }
    }
  }

  lemma AssignNew(a: Asn, m: Lit, c: int, d: seq<Lit>)
    requires AsnOk(a) && LitOk(a, m) && a.vals[m] == 0
    requires |d| >= 1 && d[0] == m && AllFalse(a, d[1..])
    ensures Forces(Assigned(a, m, c), d, |a.trail|)
  {
    hide Var, Not, IsPos, Mk, NotesOk, LevOk;
    LitFacts();
    assert a.vals[Not(m)] == 0;
    var b := Assigned(a, m, c);
    forall i | 1 <= i < |d| ensures LitOk(b, d[i]) && b.vals[d[i]] == -1 && b.pos[Var(d[i])] < |a.trail| {
      assert d[i] == d[1..][i - 1];
      assert a.vals[Not(d[i])] == 1;
    }
  }

  // ---- reordering the literals of a clause ----

  function Swap(c: seq<Lit>, i: int, j: int): seq<Lit>
    requires 0 <= i < |c| && 0 <= j < |c|
  {
    c[i := c[j]][j := c[i]]
  }

  /** The same clauses at the same places, up to the order of their literals. */
  ghost predicate Reordered(c0: Cls, c1: Cls) {
    c0.Keys == c1.Keys && forall p :: p in c0 ==> multiset(c0[p]) == multiset(c1[p])
  }

  lemma SwapReorders(cls: Cls, p: int, i: int, j: int)
    requires p in cls && 0 <= i < |cls[p]| && 0 <= j < |cls[p]|
    ensures Reordered(cls, cls[p := Swap(cls[p], i, j)])
  {
  }

  lemma ReorderedTrans(c0: Cls, c1: Cls, c2: Cls)
    requires Reordered(c0, c1) && Reordered(c1, c2)
    ensures Reordered(c0, c2)
  {
  }

  lemma ReorderedLits(c0: Cls, c1: Cls, p: int)
    requires Reordered(c0, c1) && p in c0
    ensures |c0[p]| == |c1[p]| && forall m :: m in c0[p] <==> m in c1[p]
  {
    assert |multiset(c0[p])| == |c0[p]| && |multiset(c1[p])| == |c1[p]|;
    assert forall m :: m in c0[p] <==> m in multiset(c0[p]);
    assert forall m :: m in c1[p] <==> m in multiset(c1[p]);
  }

  lemma SwapCore(a: Asn, cls: Cls, p: int, i: int, j: int)
    requires Core(a, cls)
    requires p in cls && 0 <= i < |cls[p]| && 0 <= j < |cls[p]|
    requires a.vals[cls[p][0]] != 1
    ensures Core(a, cls[p := Swap(cls[p], i, j)])
  {
  }

  /** Undoing keeps the reasons of what stays assigned. */
  lemma CutCore(a: Asn, b: Asn, cls: Cls, k: int, tgt: int)
    requires Core(a, cls) && IsCut(a, b, k, tgt)
    ensures Core(b, cls)
  {
    CutKeeps(a, b, k, tgt);
    forall j | 0 <= j < |b.trail| && b.why[j] != 0 ensures b.why[j] in cls && Forces(b, cls[b.why[j]], j) {
      assert a.why[j] == b.why[j];
      CutForces(a, b, cls[a.why[j]], j, k, tgt);
    }
  }

  lemma CutForces(a: Asn, b: Asn, c: seq<Lit>, j: int, k: int, tgt: int)
    requires AsnOk(a) && IsCut(a, b, k, tgt) && Sizes(b) && 0 <= j < k && Forces(a, c, j)
    ensures Forces(b, c, j)
  {
  }
}
