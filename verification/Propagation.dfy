/** The invariant of unit propagation and the steps of one visit to a watch
  (internal/xo/trail.go:115-238). */
module Propagation {
  import opened Lits
  import opened Assignment
  import opened Clauses
  import opened Watching

  /** b is a with more literals assigned at the current level. */
  ghost predicate Extends(a: Asn, b: Asn) {
    && |a.vals| == |b.vals| && a.level == b.level && a.starts == b.starts
    && a.trail <= b.trail && a.lv <= b.lv && a.why <= b.why
  }

  ghost predicate PropOk(a: Asn, cls: Cls, added: set<int>, ws: Lists, h: int, m: Lit, todo: set<int>) {
    && Core(a, cls) && WatchesOk(cls, ws, |a.vals|) && QueueOk(a, h)
    && BlockOk(a, cls, added, h, m, todo) && added <= cls.Keys
  }

  /** m is false, and was made so at the current level. */
  ghost predicate FalseNow(a: Asn, m: Lit) {
    Sizes(a) && LitOk(a, m) && a.vals[m] == -1 && a.levels[Var(m)] == a.level
  }

  /** Entry i of the list of m, for clause c. */
  ghost predicate DueEntry(cls: Cls, ws: Lists, m: Lit, i: int, w: Watch) {
    0 <= m < |ws| && 0 <= i < |ws[m]| && ws[m][i] == w && w.c in cls
  }

  lemma EntryFacts(a: Asn, cls: Cls, added: set<int>, ws: Lists, h: int, m: Lit, todo: set<int>, i: int, w: Watch)
    requires PropOk(a, cls, added, ws, h, m, todo) && LitOk(a, m) && 0 <= i < |ws[m]| && ws[m][i] == w
    ensures Sizes(a) && DueEntry(cls, ws, m, i, w)
    ensures var c := cls[w.c];
      && |c| >= 2 && (c[0] == m || c[1] == m) && w.other in c && w.other != m && w.bin == (|c| == 2)
      && c[0] != c[1] && LitOk(a, w.other) && w.c > 0 && -1 <= a.vals[w.other] <= 1
      && forall i :: 0 <= i < |c| ==> LitOk(a, c[i]) && -1 <= a.vals[c[i]] <= 1
  {
    hide Core, QueueOk, BlockOk;
    assert ListOk(cls, m, ws[m]);
    assert InW(ws[m], w.c);
    assert Watched(cls, w.c, m);
    CoreClause(a, cls, w.c);
  }

  lemma CoreClause(a: Asn, cls: Cls, p: int)
    requires Core(a, cls) && p in cls
    ensures p > 0 && ClauseOk(|a.vals|, cls[p]) && Sizes(a) && AsnOk(a)
    ensures |cls[p]| >= 2 ==> cls[p][0] != cls[p][1]
    ensures forall i :: 0 <= i < |cls[p]| ==> LitOk(a, cls[p][i]) && -1 <= a.vals[cls[p][i]] <= 1
  {
  }

  /** Clause q holds a true literal: it is done, whatever watches it. */
  lemma StepKeep(a: Asn, cls: Cls, added: set<int>, ws: Lists, h: int, m: Lit, todo: set<int>, q: int, t: Lit)
    requires PropOk(a, cls, added, ws, h, m, todo) && FalseNow(a, m)
    requires q in cls && t in cls[q] && LitOk(a, t) && a.vals[t] == 1
    ensures PropOk(a, cls, added, ws, h, m, todo - {q})
  {
    PlaceOf(a, t);
    assert Blocked(a, cls[q], a.levels[Var(m)]);
    BlockDone(a, cls, added, h, m, todo, q);
  }

  lemma StepSwap(a: Asn, cls: Cls, added: set<int>, ws: Lists, h: int, m: Lit, todo: set<int>, q: int)
    requires PropOk(a, cls, added, ws, h, m, todo)
    requires q in cls && |cls[q]| >= 2 && LitOk(a, cls[q][0]) && a.vals[cls[q][0]] != 1
    ensures PropOk(a, cls[q := Swap(cls[q], 0, 1)], added, ws, h, m, todo)
  {
    CoreClause(a, cls, q);
    SwapCore(a, cls, q, 0, 1);
    SwapWatches(cls, ws, |a.vals|, q);
    SwapBlock(a, cls, added, h, m, todo, q, 0, 1);
    hide Core, WatchesOk, QueueOk, BlockOk;
  }

  /** The first literal of clause q is assigned, the others being false. */
  lemma StepAssign(a: Asn, cls: Cls, added: set<int>, ws: Lists, h: int, m: Lit, todo: set<int>, q: int)
    requires PropOk(a, cls, added, ws, h, m, todo) && FalseNow(a, m)
    requires q in cls && |cls[q]| >= 2 && CanAssign(a, cls, cls[q][0], q) && q != 0
    ensures var b := Assigned(a, cls[q][0], q);
      PropOk(b, cls, added, ws, h, m, todo - {q}) && Extends(a, b) && FalseNow(b, m)
  {
    var l := cls[q][0];
    var b := Assigned(a, l, q);
    AssignCore(a, cls, l, q);
    AssignBlockOk(a, cls, added, h, m, todo, l, q);
    AssignStays(a, l, q, m);
    assert QueueOk(b, h);
    hide WatchesOk, QueueOk, BlockOk;
    StepKeep(b, cls, added, ws, h, m, todo, q, l);
    hide Core;
  }

  lemma AssignStays(a: Asn, l: Lit, q: int, m: Lit)
    requires AsnOk(a) && LitOk(a, l) && a.vals[l] == 0 && FalseNow(a, m) && q != 0
    ensures var b := Assigned(a, l, q); FalseNow(b, m) && b.vals[l] == 1
  {
    hide Var, Not, IsPos, Mk, NotesOk, LevOk, TrailOk;
    LitFacts();
    assert a.vals[Not(l)] == 0;
  }

  /** Clause q watches its j-th literal, which is not false, instead of m. */
  lemma StepMove(a: Asn, cls: Cls, added: set<int>, ws: Lists, h: int, m: Lit, todo: set<int>, i: int, q: int, w: int, j: int)
    requires PropOk(a, cls, added, ws, h, m, todo)
    requires q in cls && 0 <= w < 2 <= j < |cls[q]| && cls[q][w] == m
    requires 0 <= m < |ws| && 0 <= i < |ws[m]| && ws[m][i].c == q
    requires LitOk(a, m) && LitOk(a, cls[q][0]) && a.vals[cls[q][0]] != 1
    requires LitOk(a, cls[q][j]) && a.vals[cls[q][j]] != -1
    ensures var k := cls[q][j];
      PropOk(a, cls[q := Swap(cls[q], w, j)], added,
        ws[m := Without(ws[m], i)][k := ws[k] + [Watch(q, m, false)]], h, m, todo - {q})
  {
    hide Core, WatchesOk, QueueOk, BlockOk, ClauseOk, Blocked;
    CoreClause(a, cls, q);
    CoreClauses(a, cls);
    SwapCore(a, cls, q, w, j);
    MoveWatch(cls, ws, |a.vals|, q, w, j, i);
    SwapBlock(a, cls, added, h, m, todo, q, w, j);
    MovedAway(|a.vals|, cls, q, w, j);
    BlockDone(a, cls[q := Swap(cls[q], w, j)], added, h, m, todo, q);
  }

  lemma CoreClauses(a: Asn, cls: Cls)
    requires Core(a, cls)
    ensures ClsOk(|a.vals|, cls)
  {
  }

  /** The literal moved away from place w is not watched any more. */
  lemma MovedAway(n: int, cls: Cls, q: int, w: int, j: int)
    requires q in cls && ClauseOk(n, cls[q]) && 0 <= w < 2 <= j < |cls[q]|
    ensures !Watched(cls[q := Swap(cls[q], w, j)], q, cls[q][w])
  {
  }

  lemma ExtendsTrans(a: Asn, b: Asn, c: Asn)
    requires Extends(a, b) && Extends(b, c)
    ensures Extends(a, c)
  {
  }

  /** What is left when propagation stops early at a conflict. */
  ghost predicate LowOk(a: Asn, cls: Cls, added: set<int>, ws: Lists) {
    Core(a, cls) && WatchesOk(cls, ws, |a.vals|) && BlockLow(a, cls, added) && added <= cls.Keys
  }

  lemma ConflictLow(a: Asn, cls: Cls, added: set<int>, ws: Lists, h: int, m: Lit, todo: set<int>)
    requires PropOk(a, cls, added, ws, h, m, todo) && (FalseNow(a, m) || todo == {})
    ensures LowOk(a, cls, added, ws)
  {
    hide WatchesOk, ClsOk, ReasonsOk;
    if todo == {} && !FalseNow(a, m) {
      forall p, l | p in added && LitOk(a, l) && Watched(cls, p, l) && a.vals[l] == -1 && a.levels[Var(l)] < a.level
        ensures Blocked(a, cls[p], a.levels[Var(l)])
      {
        LowIsDone(a, h, l);
      }
    } else {
      BlockConflict(a, cls, added, h, m, todo);
    }
  }

  /** The next literal of the queue starts to be propagated. */
  lemma PropStart(a: Asn, cls: Cls, added: set<int>, ws: Lists, h: int, m: Lit, todo: set<int>)
    requires PropOk(a, cls, added, ws, h, 0, {}) && h < |a.trail| && m == Not(a.trail[h])
    requires |ws| == |a.vals| && (LitOk(a, m) ==> forall k :: 0 <= k < |ws[m]| ==> ws[m][k].c in todo)
    ensures PropOk(a, cls, added, ws, h + 1, m, todo) && FalseNow(a, m)
  {
    PropFalse(a, h, m);
    forall p | Watched(cls, p, m) ensures p in todo {
      assert ListOk(cls, m, ws[m]);
      assert InW(ws[m], p);
    }
    BlockStart(a, cls, added, h, m, todo);
  }

  lemma PropFalse(a: Asn, h: int, m: Lit)
    requires AsnOk(a) && QueueOk(a, h) && h < |a.trail| && m == Not(a.trail[h])
    ensures FalseNow(a, m)
  {
    hide Var, Not, IsPos, Mk, LevOk;
    LitFacts();
    assert a.vals[a.trail[h]] == 1;
  }

  lemma PropEnd(a: Asn, cls: Cls, added: set<int>, ws: Lists, h: int, m: Lit)
    requires PropOk(a, cls, added, ws, h, m, {})
    ensures PropOk(a, cls, added, ws, h, 0, {})
  {
  }

  lemma PropShape(a: Asn, cls: Cls, added: set<int>, ws: Lists, h: int)
    requires PropOk(a, cls, added, ws, h, 0, {})
    ensures 0 <= h <= |a.trail| <= |a.vals| == |ws|
    ensures h < |a.trail| ==> LitOk(a, Not(a.trail[h]))
  {
    TrailBound(a);
    if h < |a.trail| { PropFalse(a, h, Not(a.trail[h])); }
  }

  lemma ExtendsSize(a: Asn, b: Asn)
    requires Extends(a, b)
    ensures |a.vals| == |b.vals| && |a.trail| <= |b.trail| && a.level == b.level
  {
  }

  /** After undoing, propagation is complete again for what stays assigned. */
  lemma CutProp(a: Asn, b: Asn, cls: Cls, added: set<int>, ws: Lists, k: int, tgt: int)
    requires LowOk(a, cls, added, ws) && IsCut(a, b, k, tgt) && tgt < a.level
    ensures PropOk(b, cls, added, ws, k, 0, {})
  {
    CutCore(a, b, cls, k, tgt);
    hide WatchesOk, ReasonsOk, ClsOk;
    forall p, l | p in added && LitOk(b, l) && Watched(cls, p, l) && b.vals[l] == -1
      ensures Blocked(b, cls[p], b.levels[Var(l)])
    {
      CutStays(a, b, k, tgt, l);
      CutBlocked(a, b, cls[p], k, tgt, a.levels[Var(l)]);
    }
  }

  lemma CutBlocked(a: Asn, b: Asn, c: seq<Lit>, k: int, tgt: int, d: int)
    requires AsnOk(a) && IsCut(a, b, k, tgt) && Sizes(b) && d <= tgt && Blocked(a, c, d)
    ensures Blocked(b, c, d)
  {
    var t :| t in c && LitOk(a, t) && a.vals[t] == 1 && a.levels[Var(t)] <= d;
    CutStays(a, b, k, tgt, t);
  }
}
