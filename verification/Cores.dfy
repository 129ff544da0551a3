/** Which assumptions a failure depends on: those reached from it through the reasons
  of false literals (internal/xo/s.go:586-597, 716-748). */
module Cores {
  import opened Lits
  import opened Assignment
  import opened Clauses
  import opened Resolution
  import opened Minimization
  import opened Soundness

  /** The variables of c from its second literal on are marked. */
  ghost predicate RestMarked(marks: seq<bool>, c: seq<Lit>) {
    forall i :: 1 <= i < |c| ==> 0 <= Var(c[i]) < |marks| && marks[Var(c[i])]
  }

  /** The false literal t is false by a decision in failed, or by a clause whose other
    variables are marked. */
  ghost predicate Explained(a: Asn, cls: Cls, marks: seq<bool>, failed: seq<Lit>, t: Lit)
    requires Sizes(a) && LitOk(a, t)
  {
    var r := a.reasons[Var(t)];
    if r == 0 then Not(t) in failed else r in cls && RestMarked(marks, cls[r])
  }

  /** All marked variables are explained, but for those in open. */
  ghost predicate Closed(a: Asn, cls: Cls, marks: seq<bool>, failed: seq<Lit>, open: set<int>)
    requires Sizes(a)
  {
    forall t: Lit {:trigger a.vals[t]} ::
      LitOk(a, t) && a.vals[t] == -1 && 0 <= Var(t) < |marks| && marks[Var(t)] && Var(t) !in open ==> Explained(a, cls, marks, failed, t)
  }

  ghost predicate MarksMore(m0: seq<bool>, m1: seq<bool>) {
    |m0| == |m1| && forall x :: 0 <= x < |m0| && m0[x] ==> m1[x]
  }

  /** The literal n was decided. */
  ghost predicate Decided(a: Asn, n: Lit)
    requires Sizes(a)
  {
    exists k :: 0 <= k < |a.trail| && a.trail[k] == n && a.why[k] == 0
  }

  /** What was found is added at the end and was decided. */
  ghost predicate Found(a: Asn, f0: seq<Lit>, f1: seq<Lit>)
    requires Sizes(a)
  {
    f0 <= f1 && forall k :: |f0| <= k < |f1| ==> Decided(a, f1[k])
  }

  lemma FoundNone(a: Asn, f: seq<Lit>)
    requires Sizes(a)
    ensures Found(a, f, f)
  {
  }

  lemma FoundTrans(a: Asn, f0: seq<Lit>, f1: seq<Lit>, f2: seq<Lit>)
    requires Sizes(a) && Found(a, f0, f1) && Found(a, f1, f2)
    ensures Found(a, f0, f2)
  {
  }

  lemma MarksSame(m: seq<bool>)
    ensures MarksMore(m, m)
  {
  }

  lemma MarksStay(m0: seq<bool>, m1: seq<bool>)
    requires MarksMore(m0, m1)
    ensures |m0| == |m1| && forall x :: 0 <= x < |m0| && m0[x] ==> m1[x]
  {
  }

  lemma MarksTrans(m0: seq<bool>, m1: seq<bool>, m2: seq<bool>)
    requires MarksMore(m0, m1) && MarksMore(m1, m2)
    ensures MarksMore(m0, m2)
  {
  }

  lemma ExplainedMore(a: Asn, cls: Cls, m0: seq<bool>, m1: seq<bool>, f0: seq<Lit>, f1: seq<Lit>, t: Lit)
    requires Sizes(a) && LitOk(a, t) && Explained(a, cls, m0, f0, t) && MarksMore(m0, m1) && f0 <= f1
    ensures Explained(a, cls, m1, f1, t)
  {
  }

  lemma MarkOpen(a: Asn, cls: Cls, marks: seq<bool>, failed: seq<Lit>, open: set<int>, v: int)
    requires Sizes(a) && Closed(a, cls, marks, failed, open) && 0 <= v < |marks|
    ensures Closed(a, cls, marks[v := true], failed, open + {v}) && MarksMore(marks, marks[v := true])
  {
  }

  lemma CloseMark(a: Asn, cls: Cls, marks: seq<bool>, f0: seq<Lit>, f1: seq<Lit>, open: set<int>, m: Lit)
    requires AsnOk(a) && Sizes(a) && Closed(a, cls, marks, f0, open + {Var(m)}) && f0 <= f1
    requires LitOk(a, m) && a.vals[m] == -1 && Explained(a, cls, marks, f1, m)
    ensures Closed(a, cls, marks, f1, open)
  {
    hide Var, Explained, AsnOk;
    forall t: Lit | LitOk(a, t) && a.vals[t] == -1 && 0 <= Var(t) < |marks| && marks[Var(t)] && Var(t) !in open
      ensures Explained(a, cls, marks, f1, t)
    {
      if Var(t) == Var(m) {
        SameFalse(a, m, t);
      } else {
        ExplainedMore(a, cls, marks, marks, f0, f1, t);
      }
    }
  }

  /** A false literal without reason is the negation of a decision. */
  lemma FalseDecided(a: Asn, m: Lit)
    requires AsnOk(a) && LitOk(a, m) && a.vals[m] == -1 && a.reasons[Var(m)] == 0
    ensures Sizes(a) && Decided(a, Not(m))
  {
    PlaceOf(a, m);
    hide ValsOk, TrailOk, NotesOk, LevOk;
    var k := a.pos[Var(m)];
    assert a.trail[k] == Not(m) && a.why[k] == 0;
  }

  /** In a model in which the decisions found hold, no marked literal does: by induction
    on the place on the trail. */
  lemma {:induction false} MarkedFalse(a: Asn, cls: Cls, marks: seq<bool>, failed: seq<Lit>, v: Valuation, t: Lit)
    requires AsnOk(a) && ReasonsOk(a, cls) && ModelsCls(v, cls) && AllHold(v, failed) && Closed(a, cls, marks, failed, {})
    requires LitOk(a, t) && a.vals[t] == -1 && Var(t) < |marks| && marks[Var(t)]
    ensures !Holds(v, t)
    decreases a.pos[Var(t)]
  {
    hide AsnOk, ReasonsOk, Holds;
    AsnSizes(a);
    assert Explained(a, cls, marks, failed, t);
    ReasonOf(a, cls, t);
    HoldsNot(v, t);
    var r := a.reasons[Var(t)];
    if r == 0 {
      assert Not(t) in failed;
    } else {
      var c := cls[r];
      assert Sat(v, c);
      var n :| n in c && Holds(v, n);
      var i :| 0 <= i < |c| && c[i] == n;
      if i > 0 {
        MarkedFalse(a, cls, marks, failed, v, n);
      }
    }
  }

  /** The decisions found refute the clauses on their own: some literals that cannot all
    be false are marked. */
  lemma CoreRefutes(f: set<seq<Lit>>, a: Asn, cls: Cls, marks: seq<bool>, failed: seq<Lit>, c: seq<Lit>)
    requires AsnOk(a) && ReasonsOk(a, cls) && Sound(f, cls) && Closed(a, cls, marks, failed, {})
    requires forall i :: 0 <= i < |c| ==> LitOk(a, c[i]) && a.vals[c[i]] == -1 && Var(c[i]) < |marks| && marks[Var(c[i])]
    requires forall v :: ModelsCls(v, cls) && AllHold(v, failed) ==> Sat(v, c)
    ensures Refuted(f, failed)
  {
    hide AsnOk, ReasonsOk, Closed;
    forall v | Models(v, f) && AllHold(v, failed) ensures false {
      assert ModelsCls(v, cls);
      assert Sat(v, c);
      var n :| n in c && Holds(v, n);
      var i :| 0 <= i < |c| && c[i] == n;
      MarkedFalse(a, cls, marks, failed, v, n);
      assert false;
    }
  }

  lemma ClosedNone(a: Asn, cls: Cls, marks: seq<bool>, failed: seq<Lit>)
    requires Sizes(a) && forall x :: 0 <= x < |marks| ==> !marks[x]
    ensures Closed(a, cls, marks, failed, {})
  {
  }

  lemma FoundAsked(a: Asn, f0: seq<Lit>, f1: seq<Lit>, asked: seq<Lit>)
    requires AsnOk(a) && Sizes(a) && Found(a, f0, f1) && DecisionsIn(a, asked, a.level)
    ensures f0 <= f1 && forall m :: m in f1[|f0|..] ==> m in asked
  {
  }

  // ---- exactly these ----

  /** The false literal t is of variable x, or was forced by a clause with another literal
    that leads to x. */
  ghost predicate Leads(a: Asn, cls: Cls, t: Lit, x: int)
    requires Sizes(a)
    decreases if LitOk(a, t) then a.pos[Var(t)] else 0
  {
    && LitOk(a, t) && a.vals[t] == -1 && 0 <= a.pos[Var(t)]
    && (Var(t) == x
        || var p := a.reasons[Var(t)];
           p != 0 && p in cls && |cls[p]| >= 1
           && exists q :: q in cls[p][1..] && LitOk(a, q) && 0 <= a.pos[Var(q)] < a.pos[Var(t)] && Leads(a, cls, q, x))
  }

  ghost predicate LedTo(a: Asn, cls: Cls, roots: seq<Lit>, x: int)
    requires Sizes(a)
  {
    exists t :: t in roots && Leads(a, cls, t, x)
  }

  /** The decisions that the literals of roots lead to, each once. */
  ghost predicate CoreIs(a: Asn, cls: Cls, roots: seq<Lit>, found: seq<Lit>)
    requires Sizes(a)
  {
    && (forall j, k :: 0 <= j < k < |found| ==> found[j] != found[k])
    && forall m: Lit :: m in found <==> Decided(a, m) && LedTo(a, cls, roots, Var(m))
  }

  /** Only what roots lead to is marked, and the decisions found are marked, each found once. */
  ghost predicate Tidy(a: Asn, cls: Cls, roots: seq<Lit>, marks: seq<bool>, found: seq<Lit>)
    requires Sizes(a)
  {
    && (forall x :: 0 <= x < |marks| && marks[x] ==> LedTo(a, cls, roots, x))
    && (forall k :: 0 <= k < |found| ==> Decided(a, found[k]) && 0 <= Var(found[k]) < |marks| && marks[Var(found[k])])
    && (forall j, k :: 0 <= j < k < |found| ==> found[j] != found[k])
  }

  lemma TidyNone(a: Asn, cls: Cls, roots: seq<Lit>, marks: seq<bool>)
    requires Sizes(a) && forall x :: 0 <= x < |marks| ==> !marks[x]
    ensures Tidy(a, cls, roots, marks, [])
  {
  }

  lemma TidyMark(a: Asn, cls: Cls, roots: seq<Lit>, marks: seq<bool>, found: seq<Lit>, v: int)
    requires Sizes(a) && Tidy(a, cls, roots, marks, found) && 0 <= v < |marks| && LedTo(a, cls, roots, v)
    ensures Tidy(a, cls, roots, marks[v := true], found)
  {
    hide LedTo, Decided, Var;
  }

  /** The decision whose variable is marked for the first time is found for the first time. */
  lemma TidyFound(a: Asn, cls: Cls, roots: seq<Lit>, marks: seq<bool>, found: seq<Lit>, m: Lit)
    requires Sizes(a) && Tidy(a, cls, roots, marks, found) && 0 <= Var(m) < |marks| && !marks[Var(m)]
    requires LedTo(a, cls, roots, Var(m)) && Decided(a, Not(m))
    ensures Tidy(a, cls, roots, marks[Var(m) := true], found + [Not(m)])
  {
    VarNot(m);
    hide LedTo, Decided, Var, Not;
  }

  lemma LedRoot(a: Asn, cls: Cls, roots: seq<Lit>, t: Lit)
    requires AsnOk(a) && Sizes(a) && t in roots && LitOk(a, t) && a.vals[t] == -1
    ensures LedTo(a, cls, roots, Var(t))
  {
    PlaceOf(a, t);
    assert Leads(a, cls, t, Var(t));
  }

  /** What leads to the variable of m leads to those of its reason. */
  lemma {:induction false} LeadsOn(a: Asn, cls: Cls, t: Lit, m: Lit, i: int)
    requires AsnOk(a) && Sizes(a) && ReasonsOk(a, cls) && Leads(a, cls, t, Var(m)) && LitOk(a, m) && a.vals[m] == -1
    requires a.reasons[Var(m)] != 0 && a.reasons[Var(m)] in cls && 1 <= i < |cls[a.reasons[Var(m)]]|
    ensures Leads(a, cls, t, Var(cls[a.reasons[Var(m)]][i]))
    decreases a.pos[Var(t)]
  {
    hide AsnOk, ReasonsOk;
    ReasonOf(a, cls, m);
    var p := a.reasons[Var(t)];
    if Var(t) == Var(m) {
      SameFalse(a, m, t);
      var q := cls[p][i];
      PlaceOf(a, q);
      assert q == cls[p][1..][i - 1];
      assert Leads(a, cls, q, Var(q));
    } else {
      var q :| q in cls[p][1..] && LitOk(a, q) && 0 <= a.pos[Var(q)] < a.pos[Var(t)] && Leads(a, cls, q, Var(m));
      LeadsOn(a, cls, q, m, i);
    }
  }

  lemma LedOn(a: Asn, cls: Cls, roots: seq<Lit>, m: Lit)
    requires AsnOk(a) && Sizes(a) && ReasonsOk(a, cls) && LedTo(a, cls, roots, Var(m)) && LitOk(a, m) && a.vals[m] == -1
    requires a.reasons[Var(m)] != 0 && a.reasons[Var(m)] in cls
    ensures forall i :: 1 <= i < |cls[a.reasons[Var(m)]]| ==> LedTo(a, cls, roots, Var(cls[a.reasons[Var(m)]][i]))
  {
    hide AsnOk, ReasonsOk, Leads;
    var t :| t in roots && Leads(a, cls, t, Var(m));
    forall i | 1 <= i < |cls[a.reasons[Var(m)]]| ensures LedTo(a, cls, roots, Var(cls[a.reasons[Var(m)]][i])) {
      LeadsOn(a, cls, t, m, i);
    }
  }

  /** When all marked variables are explained, those that a marked one leads to are marked. */
  lemma {:induction false} LedMarked(a: Asn, cls: Cls, marks: seq<bool>, found: seq<Lit>, t: Lit, x: int)
    requires Sizes(a) && Closed(a, cls, marks, found, {}) && Leads(a, cls, t, x) && 0 <= Var(t) < |marks| && marks[Var(t)]
    ensures 0 <= x < |marks| && marks[x]
    decreases a.pos[Var(t)]
  {
    assert a.vals[t] == -1;
    if Var(t) != x {
      var p := a.reasons[Var(t)];
      assert Explained(a, cls, marks, found, t);
      var q :| q in cls[p][1..] && LitOk(a, q) && 0 <= a.pos[Var(q)] < a.pos[Var(t)] && Leads(a, cls, q, x);
      var j :| 1 <= j < |cls[p]| && cls[p][j] == q;
      LedMarked(a, cls, marks, found, q, x);
    }
  }

  /** The search for failed assumptions ends with exactly the decisions led to. */
  lemma CoreExact(a: Asn, cls: Cls, roots: seq<Lit>, marks: seq<bool>, found: seq<Lit>)
    requires AsnOk(a) && Sizes(a) && Closed(a, cls, marks, found, {}) && Tidy(a, cls, roots, marks, found)
    requires forall i :: 0 <= i < |roots| ==> 0 <= Var(roots[i]) < |marks| && marks[Var(roots[i])]
    ensures CoreIs(a, cls, roots, found)
  {
    hide Closed, AsnOk, Var, Not, Leads;
    forall m: Lit | Decided(a, m) && LedTo(a, cls, roots, Var(m)) ensures m in found {
      var t :| t in roots && Leads(a, cls, t, Var(m));
      LedMarked(a, cls, marks, found, t, Var(m));
      DecidedFound(a, cls, marks, found, m);
    }
  }

  lemma DecidedFound(a: Asn, cls: Cls, marks: seq<bool>, found: seq<Lit>, m: Lit)
    requires AsnOk(a) && Sizes(a) && Closed(a, cls, marks, found, {}) && Decided(a, m) && 0 <= Var(m) < |marks| && marks[Var(m)]
    ensures m in found
  {
    var k :| 0 <= k < |a.trail| && a.trail[k] == m && a.why[k] == 0;
    hide Closed, LevOk;
    UipFalse(a, k);
    VarNot(m);
    NotNot(m);
    ClosedAt(a, cls, marks, found, Not(m));
  }

  lemma ClosedAt(a: Asn, cls: Cls, marks: seq<bool>, found: seq<Lit>, t: Lit)
    requires Sizes(a) && Closed(a, cls, marks, found, {}) && LitOk(a, t) && a.vals[t] == -1 && 0 <= Var(t) < |marks| && marks[Var(t)]
    ensures Explained(a, cls, marks, found, t)
  {
  }

  lemma ClosedMore(a: Asn, cls: Cls, marks: seq<bool>, f0: seq<Lit>, f1: seq<Lit>)
    requires Sizes(a) && Closed(a, cls, marks, f0, {}) && forall m :: m in f0 ==> m in f1
    ensures Closed(a, cls, marks, f1, {})
  {
    forall t: Lit | LitOk(a, t) && a.vals[t] == -1 && 0 <= Var(t) < |marks| && marks[Var(t)]
      ensures Explained(a, cls, marks, f1, t)
    {
      assert Explained(a, cls, marks, f0, t);
    }
  }

  lemma OneFalse(m: Lit, failed: seq<Lit>)
    requires m in failed
    ensures forall v :: AllHold(v, failed) ==> Sat(v, [m])
  {
  }
}
