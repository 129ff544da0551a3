/** What the clauses entail, and the walk back along the trail that resolves a
  conflict until one literal of the current level is left
  (internal/xo/derive.go:80-186). */
module Resolution {
  import opened Lits
  import opened Counting
  import opened Assignment
  import opened Clauses

  ghost predicate ModelsCls(v: Valuation, cls: Cls) {
    forall p :: p in cls ==> Sat(v, cls[p])
  }

  ghost predicate AnyHolds(v: Valuation, r: set<Lit>) {
    exists n :: n in r && Holds(v, n)
  }

  /** Every model of the clauses satisfies one of the literals. */
  ghost predicate Entailed(cls: Cls, r: set<Lit>) {
    forall v :: ModelsCls(v, cls) ==> AnyHolds(v, r)
  }

  ghost function LitSet(c: seq<Lit>): set<Lit> {
    set m | m in c
  }

  lemma ClauseEntailed(cls: Cls, p: int)
    requires p in cls
    ensures Entailed(cls, LitSet(cls[p]))
  {
  }

  /** Resolution of r, which holds the negation of m, with a clause that begins with m. */
  lemma Resolve(cls: Cls, r: set<Lit>, p: int, m: Lit)
    requires Entailed(cls, r) && p in cls && |cls[p]| >= 1 && cls[p][0] == m
    ensures Entailed(cls, (r - {Not(m)}) + LitSet(cls[p][1..]))
  {
  }

  /** In a model of the clauses that agrees with the decisions among the first n
    literals of the trail, all these literals hold. */
  lemma {:induction false} TrailHolds(a: Asn, cls: Cls, v: Valuation, n: int)
    requires AsnOk(a) && ReasonsOk(a, cls) && ModelsCls(v, cls) && 0 <= n <= |a.trail|
    requires forall k :: 0 <= k < n && a.why[k] == 0 ==> Holds(v, a.trail[k])
    ensures forall k :: 0 <= k < n ==> Holds(v, a.trail[k])
  {
    hide AsnOk, Holds;
    AsnSizes(a);
    if n > 0 {
      TrailHolds(a, cls, v, n - 1);
      if a.why[n - 1] != 0 {
        var c := cls[a.why[n - 1]];
        assert Sat(v, c);
        var t :| t in c && Holds(v, t);
        var i :| 0 <= i < |c| && c[i] == t;
        if i > 0 {
          assert Forces(a, c, n - 1);
          FalseLater(a, v, t, n - 1);
        }
      }
    }
  }

  /** A literal whose negation is among the first n of the trail, which hold, does not hold. */
  lemma FalseLater(a: Asn, v: Valuation, t: Lit, n: int)
    requires AsnOk(a) && LitOk(a, t) && a.vals[t] == -1 && a.pos[Var(t)] < n <= |a.trail|
    requires forall k :: 0 <= k < n ==> Holds(v, a.trail[k])
    ensures !Holds(v, t)
  {
    PlaceOf(a, t);
    HoldsNot(v, t);
  }

  /** The literals of level 0 hold in every model of the clauses. */
  lemma ZeroFalse(a: Asn, cls: Cls, v: Valuation, t: Lit)
    requires AsnOk(a) && ReasonsOk(a, cls) && ModelsCls(v, cls)
    requires LitOk(a, t) && a.vals[t] == -1 && a.levels[Var(t)] == 0
    ensures !Holds(v, t)
  {
    PlaceOf(a, t);
    var n := a.pos[Var(t)] + 1;
    ZeroNoDecision(a, n);
    TrailHolds(a, cls, v, n);
    FalseLater(a, v, t, n);
  }

  lemma ZeroNoDecision(a: Asn, n: int)
    requires AsnOk(a) && 0 < n <= |a.trail| && a.lv[n - 1] == 0
    ensures forall k :: 0 <= k < n ==> a.why[k] != 0
  {
  }

  // ---- the walk ----

  /** The literals are of variables in use. */
  ghost predicate InBound(c: seq<Lit>, b: int) {
    forall m :: m in c ==> m <= b
  }

  ghost predicate AllBound(cls: Cls, b: int) {
    forall p :: p in cls ==> InBound(cls[p], b)
  }

  lemma BoundNone(b: int)
    ensures InBound([], b)
  {
  }

  lemma BoundHead(u: Lit, c: seq<Lit>, sl: seq<Lit>, b: int)
    requires |c| >= 1 && c[0] == u && InBound(c[1..], b) && InBound(sl, b) && u in sl
    ensures InBound(c, b)
  {
    assert c == [u] + c[1..];
  }

  lemma BoundLess(c: seq<Lit>, d: seq<Lit>, b: int)
    requires InBound(c, b) && forall m :: m in d ==> m in c
    ensures InBound(d, b)
  {
  }

  /** Where the walk is: the variables seen, the literals found below the current
    level, those found at the current level, the number of the latter that are
    still to come on the trail, and the largest level below the current one. */
  datatype Walk = Walk(seen: seq<bool>, low: seq<Lit>, sl: seq<Lit>, count: int, target: int)

  ghost function Pend(a: Asn, sl: seq<Lit>, i: int): set<int>
    requires forall m :: m in sl ==> 0 <= Var(m) < |a.pos|
  {
    set m | m in sl && a.pos[Var(m)] <= i :: Var(m)
  }

  ghost predicate SlOk(a: Asn, seen: seq<bool>, sl: seq<Lit>)
    requires Sizes(a)
  {
    && |seen| == |a.reasons|
    && forall m {:trigger m in sl} :: m in sl ==>
         LitOk(a, m) && a.vals[m] == -1 && seen[Var(m)] && a.levels[Var(m)] == a.level
  }

  /** The literals are false, of different variables, and of levels between 1 and
    target, which is the largest of their levels. */
  ghost predicate LowLits(a: Asn, low: seq<Lit>, target: int)
    requires Sizes(a)
  {
    && (forall k :: 0 <= k < |low| ==>
          LitOk(a, low[k]) && a.vals[low[k]] == -1 && 0 < a.levels[Var(low[k])] <= target)
    && (forall j, k :: 0 <= j < k < |low| ==> Var(low[j]) != Var(low[k]))
    && 0 <= target < a.level
    && (target == 0 || exists k :: 0 <= k < |low| && a.levels[Var(low[k])] == target)
  }

  ghost predicate LowSeen(seen: seq<bool>, low: seq<Lit>) {
    forall k :: 0 <= k < |low| ==> 0 <= Var(low[k]) < |seen| && seen[Var(low[k])]
  }

  /** A seen variable is at level 0, or its false literal was noted. */
  ghost predicate SeenOk(a: Asn, seen: seq<bool>, low: seq<Lit>, sl: seq<Lit>)
    requires Sizes(a) && |seen| == |a.reasons|
  {
    forall n: Lit {:trigger a.vals[n]} :: LitOk(a, n) && seen[Var(n)] ==>
      a.vals[n] != 0 && (a.vals[n] == -1 ==> a.levels[Var(n)] == 0 || n in sl || n in low)
  }

  ghost predicate WalkOk(a: Asn, w: Walk, i: int)
    requires Sizes(a)
  {
    && SlOk(a, w.seen, w.sl) && LowLits(a, w.low, w.target) && LowSeen(w.seen, w.low) && SeenOk(a, w.seen, w.low, w.sl)
    && |Pend(a, w.sl, i)| == w.count
  }

  /** The false literal n is accounted for. */
  ghost predicate Rep(a: Asn, w: Walk, i: int, n: Lit)
    requires Sizes(a)
  {
    && LitOk(a, n) && a.vals[n] == -1
    && (a.levels[Var(n)] == 0 || n in w.low || (n in w.sl && a.pos[Var(n)] <= i))
  }

  lemma MarkShape(a: Asn, w: Walk, i: int, m: Lit)
    requires AsnOk(a) && WalkOk(a, w, i) && LitOk(a, m) && a.vals[m] == -1
    ensures 0 <= Var(m) < |w.seen| == |a.levels| && 0 <= a.levels[Var(m)] <= a.level && 0 <= w.target
  {
    PlaceOf(a, m);
  }

  ghost predicate RepMore(a: Asn, w: Walk, w': Walk, i: int)
    requires Sizes(a)
  {
    forall n :: Rep(a, w, i, n) ==> Rep(a, w', i, n)
  }

  /** The literals of c from place j to place k are accounted for. */
  ghost predicate RepAll(a: Asn, w: Walk, i: int, c: seq<Lit>, j: int, k: int)
    requires Sizes(a)
  {
    forall x :: 0 <= j <= x < k <= |c| ==> Rep(a, w, i, c[x])
  }

  /** The literals of c from the j-th on are false; those of the current level are
    at place i of the trail or before. */
  ghost predicate ToMark(a: Asn, i: int, c: seq<Lit>, j: int)
    requires Sizes(a)
  {
    forall x :: 0 <= j <= x < |c| ==>
      LitOk(a, c[x]) && a.vals[c[x]] == -1 && (a.levels[Var(c[x])] == a.level ==> a.pos[Var(c[x])] <= i)
  }

  lemma RepStep(a: Asn, w0: Walk, w: Walk, w': Walk, i: int, c: seq<Lit>, j: int, k: int)
    requires Sizes(a) && RepMore(a, w0, w, i) && RepMore(a, w, w', i)
    requires 0 <= j <= k < |c| && RepAll(a, w, i, c, j, k) && Rep(a, w', i, c[k])
    ensures RepMore(a, w0, w', i) && RepAll(a, w', i, c, j, k + 1)
  {
  }

  lemma RepStart(a: Asn, w: Walk, i: int, c: seq<Lit>, j: int)
    requires Sizes(a)
    ensures RepMore(a, w, w, i) && RepAll(a, w, i, c, j, j)
  {
  }

  lemma MarkOld(a: Asn, w: Walk, i: int, n: Lit)
    requires Sizes(a) && WalkOk(a, w, i) && LitOk(a, n) && a.vals[n] == -1
    requires a.levels[Var(n)] == a.level ==> a.pos[Var(n)] <= i
    requires w.seen[Var(n)]
    ensures Rep(a, w, i, n)
  {
  }

  /** Marking the variable of n seen, with n noted if it is not at level 0. */
  lemma MarkSeen(a: Asn, seen: seq<bool>, low: seq<Lit>, sl: seq<Lit>, low': seq<Lit>, sl': seq<Lit>, n: Lit)
    requires AsnOk(a) && |seen| == |a.reasons| && SeenOk(a, seen, low, sl) && LitOk(a, n) && a.vals[n] == -1
    requires low <= low' && sl <= sl' && (a.levels[Var(n)] == 0 || n in low' || n in sl')
    ensures SeenOk(a, seen[Var(n) := true], low', sl')
  {
    hide Var, IsPos, Mk, Not, LevOk, NotesOk, TrailOk;
    LitFacts();
    assert a.vals[Not(n)] == 1;
    assert forall m :: m in low ==> m in low';
    assert forall m :: m in sl ==> m in sl';
  }

  lemma MarkZero(a: Asn, w: Walk, i: int, n: Lit)
    requires AsnOk(a) && WalkOk(a, w, i) && LitOk(a, n) && a.vals[n] == -1
    requires a.levels[Var(n)] == 0
    ensures var w' := w.(seen := w.seen[Var(n) := true]);
      WalkOk(a, w', i) && Rep(a, w', i, n) && RepMore(a, w, w', i)
  {
    MarkSeen(a, w.seen, w.low, w.sl, w.low, w.sl, n);
    hide SeenOk;
  }

  lemma MarkLow(a: Asn, w: Walk, i: int, n: Lit)
    requires AsnOk(a) && WalkOk(a, w, i) && LitOk(a, n) && a.vals[n] == -1
    requires 0 < a.levels[Var(n)] < a.level && !w.seen[Var(n)]
    ensures var t := if w.target < a.levels[Var(n)] then a.levels[Var(n)] else w.target;
      var w' := w.(seen := w.seen[Var(n) := true], low := w.low + [n], target := t);
      WalkOk(a, w', i) && Rep(a, w', i, n) && RepMore(a, w, w', i)
  {
    MarkSeen(a, w.seen, w.low, w.sl, w.low + [n], w.sl, n);
    LowAdd(a, w.seen, w.low, w.target, n);
    hide SeenOk, LowLits, LowSeen, AsnOk;
  }

  lemma LowAdd(a: Asn, seen: seq<bool>, low: seq<Lit>, target: int, n: Lit)
    requires Sizes(a) && |seen| == |a.reasons| && LowLits(a, low, target) && LowSeen(seen, low) && LitOk(a, n) && a.vals[n] == -1
    requires 0 < a.levels[Var(n)] < a.level && !seen[Var(n)]
    ensures LowLits(a, low + [n], if target < a.levels[Var(n)] then a.levels[Var(n)] else target)
    ensures LowSeen(seen[Var(n) := true], low + [n])
  {
    hide Var, IsPos, Mk;
    LitFacts();
    var low' := low + [n];
    assert low'[|low|] == n;
    if target >= a.levels[Var(n)] {
      var k :| 0 <= k < |low| && a.levels[Var(low[k])] == target;
      assert low'[k] == low[k];
    }
  }

  lemma MarkCur(a: Asn, w: Walk, i: int, n: Lit)
    requires AsnOk(a) && WalkOk(a, w, i) && LitOk(a, n) && a.vals[n] == -1
    requires a.levels[Var(n)] == a.level && a.pos[Var(n)] <= i && !w.seen[Var(n)]
    ensures var w' := w.(seen := w.seen[Var(n) := true], sl := w.sl + [n], count := w.count + 1);
      WalkOk(a, w', i) && Rep(a, w', i, n) && RepMore(a, w, w', i)
  {
    MarkSeen(a, w.seen, w.low, w.sl, w.low, w.sl + [n], n);
    PendAdd(a, w.seen, w.sl, i, n);
    hide SeenOk, LowLits, AsnOk, SlOk, Pend;
  }

  lemma PendAdd(a: Asn, seen: seq<bool>, sl: seq<Lit>, i: int, n: Lit)
    requires Sizes(a) && SlOk(a, seen, sl) && LitOk(a, n) && a.vals[n] == -1
    requires a.levels[Var(n)] == a.level && a.pos[Var(n)] <= i && !seen[Var(n)]
    ensures SlOk(a, seen[Var(n) := true], sl + [n])
    ensures |Pend(a, sl + [n], i)| == |Pend(a, sl, i)| + 1
  {
    assert forall m :: m in sl + [n] <==> m in sl || m == n;
    assert Pend(a, sl + [n], i) == Pend(a, sl, i) + {Var(n)};
  }

  /** A literal still to come lies at the current level, and so does the trail from there on. */
  lemma PendLevel(a: Asn, seen: seq<bool>, sl: seq<Lit>, i: int)
    requires AsnOk(a) && SlOk(a, seen, sl) && i < |a.trail| && |Pend(a, sl, i)| > 0
    ensures 0 <= i && a.lv[i] == a.level
    ensures exists k :: 0 <= k <= i && a.lv[k] == a.level
  {
    var x :| x in Pend(a, sl, i);
    var n :| n in sl && a.pos[Var(n)] <= i && Var(n) == x;
    PlaceOf(a, n);
  }

  /** The variable at place i was not seen: nothing changes. */
  lemma StepSkip(a: Asn, w: Walk, i: int)
    requires AsnOk(a) && WalkOk(a, w, i) && 0 <= i < |a.trail| && 0 <= Var(a.trail[i]) < |w.seen| && !w.seen[Var(a.trail[i])]
    ensures WalkOk(a, w, i - 1)
    ensures forall n :: Rep(a, w, i, n) ==> Rep(a, w, i - 1, n)
  {
    hide SeenOk, LowLits, LowSeen;
    forall n | n in w.sl ensures a.pos[Var(n)] != i { PlaceOf(a, n); VarNot(n); }
    assert Pend(a, w.sl, i - 1) == Pend(a, w.sl, i);
  }

  lemma VarNot(n: Lit)
    ensures Var(Not(n)) == Var(n)
  {
  }

  /** The seen literal at place i of the current level is resolved upon. */
  lemma StepTake(a: Asn, w: Walk, i: int)
    requires AsnOk(a) && WalkOk(a, w, i) && w.count > 0 && i < |a.trail|
    requires 0 <= i && 0 <= Var(a.trail[i]) < |w.seen| && w.seen[Var(a.trail[i])]
    ensures WalkOk(a, w.(count := w.count - 1), i - 1)
    ensures forall n :: Rep(a, w, i, n) && n != Not(a.trail[i]) ==> Rep(a, w.(count := w.count - 1), i - 1, n)
    ensures a.lv[i] == a.level && Not(a.trail[i]) in w.sl
    ensures w.count == 1 ==> forall n :: n in w.sl ==> a.pos[Var(n)] > i - 1
    ensures w.count > 1 ==> a.why[i] != 0
  {
    hide SeenOk, LowLits, LowSeen, AsnOk, Pend;
    AsnSizes(a);
    WalkSeen(a, w, i);
    PendLevel(a, w.seen, w.sl, i);
    TakeSeen(a, w, i);
    PendTake(a, w.seen, w.sl, i);
    TakeReason(a, w, i);
    PendEmpty(a, w.seen, w.sl, i - 1);
  }

  lemma TakeReason(a: Asn, w: Walk, i: int)
    requires AsnOk(a) && SlOk(a, w.seen, w.sl) && 0 <= i < |a.trail| && a.lv[i] == a.level
    ensures |Pend(a, w.sl, i - 1)| > 0 ==> a.why[i] != 0
  {
    if |Pend(a, w.sl, i - 1)| > 0 {
      PendLevel(a, w.seen, w.sl, i - 1);
      NotDecision(a, i);
    }
  }

  /** One literal less is still to come. */
  lemma PendTake(a: Asn, seen: seq<bool>, sl: seq<Lit>, i: int)
    requires AsnOk(a) && SlOk(a, seen, sl) && 0 <= i < |a.trail| && Not(a.trail[i]) in sl
    ensures |Pend(a, sl, i - 1)| == |Pend(a, sl, i)| - 1
    ensures forall n :: n in sl && a.pos[Var(n)] == i ==> n == Not(a.trail[i])
  {
    var m := a.trail[i];
    VarNot(m);
    hide LevOk, NotesOk;
    forall n | n in sl && a.pos[Var(n)] == i ensures n == Not(m) { PlaceOf(a, n); NotNot(n); }
    assert a.pos[Var(Not(m))] == i;
    assert Pend(a, sl, i) == Pend(a, sl, i - 1) + {Var(m)};
    assert Var(m) !in Pend(a, sl, i - 1);
  }

  lemma PendEmpty(a: Asn, seen: seq<bool>, sl: seq<Lit>, i: int)
    requires Sizes(a) && SlOk(a, seen, sl)
    ensures |Pend(a, sl, i)| == 0 ==> forall n :: n in sl ==> a.pos[Var(n)] > i
  {
    forall n | n in sl && a.pos[Var(n)] <= i ensures |Pend(a, sl, i)| > 0 {
      assert Var(n) in Pend(a, sl, i);
    }
  }

  lemma NotNot(n: Lit)
    ensures Not(Not(n)) == n
  {
  }

  lemma NotDecision(a: Asn, i: int)
    requires AsnOk(a) && 0 < i < |a.trail| && a.lv[i] == a.level == a.lv[i - 1]
    ensures a.why[i] != 0
  {
    assert a.level > 0 ==> a.starts[a.level - 1] <= i - 1;
  }

  lemma TakeSeen(a: Asn, w: Walk, i: int)
    requires AsnOk(a) && WalkOk(a, w, i) && 0 <= i < |a.trail| && a.lv[i] == a.level
    requires 0 <= Var(a.trail[i]) < |w.seen| && w.seen[Var(a.trail[i])]
    ensures Not(a.trail[i]) in w.sl
  {
    var m := a.trail[i];
    hide Var, IsPos, Mk, Not, LevOk;
    LitFacts();
    assert a.vals[m] == 1;
    assert a.vals[Not(m)] == -1;
    assert a.levels[Var(m)] == a.level;
    assert forall k :: 0 <= k < |w.low| ==> w.low[k] != Not(m);
  }

  /** A clause as Derive returns it: false, its first literal alone at the current
    level, the others between level 1 and target. */
  ghost predicate LearntOk(a: Asn, c: seq<Lit>, target: int)
    requires Sizes(a)
  {
    && |c| >= 1 && 0 <= target < a.level
    && LitOk(a, c[0]) && a.vals[c[0]] == -1 && a.levels[Var(c[0])] == a.level
    && (forall k :: 1 <= k < |c| ==> LitOk(a, c[k]) && a.vals[c[k]] == -1 && 0 < a.levels[Var(c[k])] <= target)
    && (forall j, k :: 0 <= j < k < |c| ==> Var(c[j]) != Var(c[k]))
  }

  /** target is the largest level of the literals after the first, or 0 if there are none. */
  ghost predicate Reached(a: Asn, c: seq<Lit>, target: int)
    requires Sizes(a)
  {
    && (|c| <= 1 ==> target == 0)
    && (|c| > 1 ==> exists k :: 1 <= k < |c| && LitOk(a, c[k]) && a.levels[Var(c[k])] == target)
    && forall k :: 1 <= k < |c| && LitOk(a, c[k]) ==> a.levels[Var(c[k])] <= target
  }

  lemma LowReached(a: Asn, u: Lit, low: seq<Lit>, target: int)
    requires Sizes(a) && LowLits(a, low, target)
    ensures Reached(a, [u] + low, target)
  {
    var c := [u] + low;
    if |c| > 1 {
      assert low[0] in low;
      var k :| 0 <= k < |low| && a.levels[Var(low[k])] == target;
      assert c[k + 1] == low[k];
    }
  }

  lemma WalkLearnt(a: Asn, w: Walk, i: int)
    requires AsnOk(a) && WalkOk(a, w, i - 1) && 0 <= i < |a.trail| && a.lv[i] == a.level
    ensures var c := [Not(a.trail[i])] + w.low; LearntOk(a, c, w.target) && Reached(a, c, w.target)
  {
    hide SeenOk, SlOk, LowSeen, LevOk, Reached;
    LowReached(a, Not(a.trail[i]), w.low, w.target);
    UipFalse(a, i);
  }

  /** The end of the walk: one literal of the current level is left. */
  lemma WalkEnd(a: Asn, cls: Cls, w: Walk, i: int, r: set<Lit>)
    requires AsnOk(a) && ReasonsOk(a, cls) && WalkOk(a, w, i - 1) && 0 <= i < |a.trail| && a.lv[i] == a.level
    requires forall n :: n in w.sl ==> a.pos[Var(n)] > i - 1
    requires Entailed(cls, r) && forall n :: n in r ==> Rep(a, w, i - 1, n) || n == Not(a.trail[i])
    ensures var c := [Not(a.trail[i])] + w.low; LearntOk(a, c, w.target) && Reached(a, c, w.target) && Entailed(cls, LitSet(c))
  {
    hide AsnOk, LowLits, Reached, LearntOk;
    WalkLearnt(a, w, i);
    var u := Not(a.trail[i]);
    var c := [u] + w.low;
    forall v | ModelsCls(v, cls) ensures AnyHolds(v, LitSet(c)) {
      assert AnyHolds(v, r);
      var n :| n in r && Holds(v, n);
      if n != u && n !in w.low {
        ZeroFalse(a, cls, v, n);
      } else {
        assert n in c;
      }
    }
  }

  /** The literal at place i was seen: the walk ends, or goes on with its reason. */
  lemma WalkTake(a: Asn, cls: Cls, w: Walk, i: int, r: set<Lit>)
    requires AsnOk(a) && ReasonsOk(a, cls) && WalkOk(a, w, i) && w.count > 0 && 0 <= i < |a.trail|
    requires 0 <= Var(a.trail[i]) < |w.seen| && w.seen[Var(a.trail[i])]
    requires Entailed(cls, r) && Accounted(a, w, i, r, [])
    ensures WalkOk(a, w.(count := w.count - 1), i - 1) && Not(a.trail[i]) in w.sl
    ensures var c := [Not(a.trail[i])] + w.low;
      w.count == 1 ==> LearntOk(a, c, w.target) && Reached(a, c, w.target) && Entailed(cls, LitSet(c))
    ensures var m := a.trail[i]; var p := a.why[i];
      w.count > 1 ==>
        && p != 0 && p in cls && |cls[p]| >= 1 && ToMark(a, i - 1, cls[p], 1)
        && Entailed(cls, (r - {Not(m)}) + LitSet(cls[p][1..]))
        && Accounted(a, w.(count := w.count - 1), i - 1, (r - {Not(m)}) + LitSet(cls[p][1..]), cls[p][1..])
  {
    StepTake(a, w, i);
    hide Entailed, Reached;
    var w' := w.(count := w.count - 1);
    if w.count == 1 {
      WalkEnd(a, cls, w', i, r);
    } else {
      var c := cls[a.why[i]];
      assert Forces(a, c, i);
      hide WalkOk;
      Resolve(cls, r, a.why[i], a.trail[i]);
    }
  }

  lemma UipFalse(a: Asn, i: int)
    requires AsnOk(a) && 0 <= i < |a.trail|
    ensures var u := Not(a.trail[i]); LitOk(a, u) && a.vals[u] == -1 && a.levels[Var(u)] == a.lv[i]
  {
    hide Var, IsPos, Mk, Not, LevOk;
    LitFacts();
    assert a.vals[a.trail[i]] == 1;
  }

  /** The start of the walk: a false clause c with a literal of the current level. */
  lemma WalkStart(a: Asn, seen: seq<bool>)
    requires Sizes(a) && |seen| == |a.reasons| && SeenOk(a, seen, [], []) && a.level > 0
    ensures WalkOk(a, Walk(seen, [], [], 0, 0), |a.trail| - 1)
  {
  }

  /** Every literal of r is accounted for, or among those still to be marked. */
  ghost predicate Accounted(a: Asn, w: Walk, i: int, r: set<Lit>, due: seq<Lit>)
    requires Sizes(a)
  {
    forall n :: n in r ==> Rep(a, w, i, n) || n in due
  }

  ghost predicate SomeNow(a: Asn, c: seq<Lit>)
    requires Sizes(a)
  {
    exists n :: n in c && LitOk(a, n) && a.levels[Var(n)] == a.level
  }

  lemma CoreParts(a: Asn, cls: Cls)
    requires Core(a, cls)
    ensures AsnOk(a) && ReasonsOk(a, cls) && Sizes(a) && forall p :: p in cls ==> p > 0
  {
  }

  lemma WalkInit(a: Asn, cls: Cls, x: int, seen: seq<bool>)
    requires Core(a, cls) && x in cls && AllFalse(a, cls[x]) && SomeNow(a, cls[x]) && a.level > 0
    requires |seen| == |a.reasons| && SeenOk(a, seen, [], [])
    ensures var w := Walk(seen, [], [], 0, 0); var i := |a.trail| - 1; var c := cls[x];
      && WalkOk(a, w, i) && ToMark(a, i, c, 0) && Entailed(cls, LitSet(c)) && Accounted(a, w, i, LitSet(c), c[0..])
      && SomeNow(a, c[0..])
  {
    WalkStart(a, seen);
    FalseToMark(a, cls[x]);
    ClauseEntailed(cls, x);
    assert cls[x][0..] == cls[x];
  }

  lemma WalkPlace(a: Asn, w: Walk, i: int)
    requires AsnOk(a) && WalkOk(a, w, i) && w.count > 0 && i < |a.trail|
    ensures 0 <= i && LitOk(a, a.trail[i]) && 0 <= Var(a.trail[i]) < |w.seen| == |a.reasons| && a.reasons[Var(a.trail[i])] == a.why[i]
  {
    PendLevel(a, w.seen, w.sl, i);
  }

  lemma WalkSeen(a: Asn, w: Walk, i: int)
    requires Sizes(a) && WalkOk(a, w, i)
    ensures |w.seen| == |a.reasons|
    ensures SlOk(a, w.seen, w.sl) && LowSeen(w.seen, w.low) && SeenOk(a, w.seen, w.low, w.sl)
  {
  }

  lemma AccountedSkip(a: Asn, w: Walk, i: int, r: set<Lit>)
    requires Sizes(a) && Accounted(a, w, i, r, [])
    requires forall n :: Rep(a, w, i, n) ==> Rep(a, w, i - 1, n)
    ensures Accounted(a, w, i - 1, r, [])
  {
  }

  lemma FalseToMark(a: Asn, c: seq<Lit>)
    requires AsnOk(a) && AllFalse(a, c)
    ensures ToMark(a, |a.trail| - 1, c, 0)
  {
    forall x | 0 <= x < |c| ensures a.pos[Var(c[x])] <= |a.trail| - 1 { PlaceOf(a, c[x]); }
  }

  /** All the literals due are marked. */
  lemma Marked(a: Asn, w: Walk, w': Walk, i: int, r: set<Lit>, c: seq<Lit>, j: int)
    requires Sizes(a) && 0 <= j <= |c| && WalkOk(a, w', i)
    requires Accounted(a, w, i, r, c[j..]) && RepMore(a, w, w', i) && RepAll(a, w', i, c, j, |c|)
    ensures Accounted(a, w', i, r, [])
    ensures SomeNow(a, c[j..]) ==> w'.count > 0
  {
    forall n | n in c[j..] ensures Rep(a, w', i, n) {
      var k :| 0 <= k < |c[j..]| && c[j..][k] == n;
      assert c[j + k] == n;
    }
    if n :| n in c[j..] && LitOk(a, n) && a.levels[Var(n)] == a.level {
      assert Rep(a, w', i, n);
      assert n !in w'.low;
      assert Var(n) in Pend(a, w'.sl, i);
    }
  }

  lemma SlVars(a: Asn, seen: seq<bool>, sl: seq<Lit>)
    requires Sizes(a) && SlOk(a, seen, sl)
    ensures forall k :: 0 <= k < |sl| ==> 0 <= Var(sl[k]) < |seen|
  {
    forall k | 0 <= k < |sl| ensures 0 <= Var(sl[k]) < |seen| {
      assert sl[k] in sl;
    }
  }

  /** After the walk only variables of level 0 are left marked. */
  lemma SeenCleared(a: Asn, seen: seq<bool>, seen': seq<bool>, c: seq<Lit>, sl: seq<Lit>)
    requires Sizes(a) && |seen| == |seen'| == |a.reasons| && |c| >= 1 && SeenOk(a, seen, c[1..], sl)
    requires forall x :: 0 <= x < |seen| && seen'[x] ==> seen[x] && x !in VarsOf(c) && x !in VarsOf(sl)
    ensures SeenOk(a, seen', [], [])
  {
  }

  // ---- the rank of the derived clause ----

  ghost function NewLevels(l0: seq<bool>, l1: seq<bool>): set<int> {
    set l | 0 <= l < |l1| && l1[l] && !(l < |l0| && l0[l])
  }

  /** Besides the levels marked in l0 those of the noted literals are marked, and lbd
    counts the new ones. */
  ghost predicate Ranked(a: Asn, l0: seq<bool>, l1: seq<bool>, low: seq<Lit>, lbd: int)
    requires Sizes(a)
  {
    && |l0| == |l1| && lbd == |NewLevels(l0, l1)|
    && forall l :: 0 <= l < |l1| ==>
         (l1[l] <==> l0[l] || exists k :: 0 <= k < |low| && 0 <= Var(low[k]) < |a.levels| && a.levels[Var(low[k])] == l)
  }

  lemma RankedNone(a: Asn, l0: seq<bool>)
    requires Sizes(a)
    ensures Ranked(a, l0, l0, [], 0)
  {
    assert NewLevels(l0, l0) == {};
  }

  lemma RankedNote(a: Asn, l0: seq<bool>, l1: seq<bool>, low: seq<Lit>, lbd: int, m: Lit)
    requires Sizes(a) && Ranked(a, l0, l1, low, lbd) && 0 <= Var(m) < |a.levels| && 0 <= a.levels[Var(m)] < |l1|
    ensures var l := a.levels[Var(m)]; Ranked(a, l0, l1[l := true], low + [m], if l1[l] then lbd else lbd + 1)
  {
    var l := a.levels[Var(m)];
    var l2 := l1[l := true];
    assert l1[l] ==> l2 == l1;
    assert NewLevels(l0, l2) == if l1[l] then NewLevels(l0, l1) else NewLevels(l0, l1) + {l};
    forall j | 0 <= j < |l2|
      ensures l2[j] <==> l0[j] || exists k :: 0 <= k < |low + [m]| && 0 <= Var((low + [m])[k]) < |a.levels| && a.levels[Var((low + [m])[k])] == j
    {
      if l1[j] && !l0[j] {
        var k :| 0 <= k < |low| && 0 <= Var(low[k]) < |a.levels| && a.levels[Var(low[k])] == j;
        assert (low + [m])[k] == low[k];
      }
      assert (low + [m])[|low|] == m;
      if k :| 0 <= k < |low + [m]| && 0 <= Var((low + [m])[k]) < |a.levels| && a.levels[Var((low + [m])[k])] == j {
        assert k < |low| ==> (low + [m])[k] == low[k];
      }
    }
  }

  /** If no level was marked before, the rank is the number of levels of the literals noted. */
  lemma RankIs(a: Asn, l0: seq<bool>, l1: seq<bool>, low: seq<Lit>, lbd: int)
    requires Sizes(a) && Ranked(a, l0, l1, low, lbd) && forall l :: 0 <= l < |l0| ==> !l0[l]
    requires forall k :: 0 <= k < |low| ==> 0 <= Var(low[k]) < |a.levels| && 0 <= a.levels[Var(low[k])] < |l1|
    ensures lbd == |LevelsOf(a, low)|
  {
    assert NewLevels(l0, l1) == LevelsOf(a, low);
  }

  ghost function LevelsOf(a: Asn, low: seq<Lit>): set<int>
    requires forall k :: 0 <= k < |low| ==> 0 <= Var(low[k]) < |a.levels|
  {
    set k | 0 <= k < |low| :: a.levels[Var(low[k])]
  }
}
