/** The assignment of the solver as a value, what every step keeps of it, and
  the two steps that change it, assigning and undoing (internal/xo/vars.go,
  internal/xo/trail.go).  The classes hold this value in their fields. */
module Assignment {
  import opened Lits
  import opened Counting

  datatype Asn = Asn(
    vals: seq<int>,            // per literal: 1 true, -1 false, 0 unassigned
    levels: seq<int>,          // per variable: level of its assignment
    reasons: seq<int>,         // per variable: clause that forced it, or 0
    pos: seq<int>,             // per variable: its place on the trail
    trail: seq<Lit>,
    lv: seq<int>,              // per place: level
    why: seq<int>,             // per place: reason, or 0 for a decision
    starts: seq<int>,          // per level above 0: place of its decision
    level: int)

  predicate LitOk(a: Asn, m: Lit) {
    2 <= m < |a.vals|
  }

  ghost predicate Sizes(a: Asn) {
    && |a.vals| == 2 * |a.reasons| && |a.levels| == |a.reasons| == |a.pos|
    && |a.trail| == |a.lv| == |a.why|
  }

  ghost predicate ValsOk(a: Asn)
    requires Sizes(a)
  {
    forall m: Lit {:trigger a.vals[m]} :: LitOk(a, m) ==> -1 <= a.vals[m] <= 1 && a.vals[Not(m)] == -a.vals[m]
  }

  /** vals, pos and trail say the same thing; no variable is twice on the trail. */
  ghost predicate TrailOk(a: Asn)
    requires Sizes(a)
  {
    && (forall k {:trigger a.trail[k]} :: 0 <= k < |a.trail| ==>
          LitOk(a, a.trail[k]) && a.vals[a.trail[k]] == 1 && a.pos[Var(a.trail[k])] == k)
    && (forall m: Lit {:trigger a.vals[m]} :: LitOk(a, m) && a.vals[m] == 1 ==>
          0 <= a.pos[Var(m)] < |a.trail| && a.trail[a.pos[Var(m)]] == m)
  }

  /** What is recorded per variable agrees with what is recorded per place. */
  ghost predicate NotesOk(a: Asn)
    requires Sizes(a) && TrailOk(a)
  {
    && (forall k {:trigger a.trail[k]} :: 0 <= k < |a.trail| ==>
          a.levels[Var(a.trail[k])] == a.lv[k] && a.reasons[Var(a.trail[k])] == a.why[k])
    && (forall m: Lit {:trigger a.vals[m]} :: LitOk(a, m) && a.vals[m] == 0 ==> a.reasons[Var(m)] == 0)
    && (|a.reasons| > 0 ==> a.reasons[0] == 0)
  }

  /** Levels never decrease along the trail; a literal without a reason, and no
    other, opens a level. */
  ghost predicate LevOk(lv: seq<int>, why: seq<int>, starts: seq<int>, level: int)
    requires |lv| == |why|
  {
    && |starts| == level
    && (forall j, k :: 0 <= j <= k < |lv| ==> 0 <= lv[j] <= lv[k] <= level)
    && (forall d :: 0 <= d < level ==> 0 <= starts[d] < |lv| && lv[starts[d]] == d + 1 && why[starts[d]] == 0)
    && (forall d, k :: 0 <= d < level && 0 <= k < |lv| && lv[k] == d + 1 ==> starts[d] <= k && (why[k] == 0 ==> starts[d] == k))
    && (forall k :: 0 <= k < |lv| && why[k] == 0 ==> lv[k] >= 1)
  }

  ghost predicate AsnOk(a: Asn) {
    Sizes(a) && ValsOk(a) && TrailOk(a) && NotesOk(a) && LevOk(a.lv, a.why, a.starts, a.level)
  }

  lemma AsnSizes(a: Asn)
    requires AsnOk(a)
    ensures Sizes(a)
  {
  }

  /** Nothing is assigned. */
  lemma InitAsn(a: Asn, top: int)
    requires top >= 4 && a.trail == a.lv == a.why == a.starts == [] && a.level == 0
    requires |a.vals| == 2 * top && |a.levels| == |a.reasons| == |a.pos| == top
    requires forall k :: 0 <= k < 2 * top ==> a.vals[k] == 0
    requires forall k :: 0 <= k < top ==> a.reasons[k] == 0
    ensures AsnOk(a)
  {
  }

  // ---- assigning ----

  function Assigned(a: Asn, m: Lit, c: int): Asn
    requires LitOk(a, m) && Sizes(a)
  {
    var l := if c == 0 then a.level + 1 else a.level;
    Asn(a.vals[m := 1][Not(m) := -1], a.levels[Var(m) := l], a.reasons[Var(m) := c], a.pos[Var(m) := |a.trail|],
      a.trail + [m], a.lv + [l], a.why + [c], if c == 0 then a.starts + [|a.trail|] else a.starts, l)
  }

  lemma AssignVals(a: Asn, m: Lit, c: int)
    requires Sizes(a) && LitOk(a, m) && ValsOk(a) && a.vals[m] == 0
    ensures Sizes(Assigned(a, m, c)) && ValsOk(Assigned(a, m, c))
  {
    hide Var, Not, IsPos, Mk;
    LitFacts();
  }

  lemma AssignTrail(a: Asn, m: Lit, c: int)
    requires Sizes(a) && LitOk(a, m) && ValsOk(a) && TrailOk(a) && a.vals[m] == 0
    ensures Sizes(Assigned(a, m, c)) && TrailOk(Assigned(a, m, c))
  {
    hide Var, Not, IsPos, Mk;
    LitFacts();
    assert a.vals[Not(m)] == 0;
  }

  lemma AssignNotes(a: Asn, m: Lit, c: int)
    requires Sizes(a) && LitOk(a, m) && ValsOk(a) && TrailOk(a) && NotesOk(a) && a.vals[m] == 0
    ensures Sizes(Assigned(a, m, c)) && TrailOk(Assigned(a, m, c)) && NotesOk(Assigned(a, m, c))
  {
    AssignTrail(a, m, c);
    hide Var, Not, IsPos, Mk;
    LitFacts();
    assert a.vals[Not(m)] == 0;
  }

  lemma AssignLev(lv: seq<int>, why: seq<int>, starts: seq<int>, level: int, l: int, c: int)
    requires |lv| == |why|
    requires LevOk(lv, why, starts, level)
    requires l == if c == 0 then level + 1 else level
    requires c != 0 || 0 <= level
    ensures LevOk(lv + [l], why + [c], if c == 0 then starts + [|lv|] else starts, l)
  {
  }

  lemma AssignKeeps(a: Asn, m: Lit, c: int)
    requires AsnOk(a) && LitOk(a, m) && a.vals[m] == 0
    ensures AsnOk(Assigned(a, m, c))
  {
    AssignVals(a, m, c);
    AssignTrail(a, m, c);
    AssignNotes(a, m, c);
    hide ValsOk, TrailOk, NotesOk;
    AssignLev(a.lv, a.why, a.starts, a.level, if c == 0 then a.level + 1 else a.level, c);
  }

  /** Two decisions, of the first two of four variables. */
  lemma TwoDecided() returns (a: Asn)
    ensures AsnOk(a)
    ensures a == Asn([0, 0, 1, -1, 1, -1, 0, 0, 0, 0], [0, 1, 2, 0, 0], [0, 0, 0, 0, 0], [0, 0, 1, 0, 0], [2, 4], [1, 2], [0, 0], [0, 1], 2)
  {
    hide AsnOk;
    var a0 := Asn(seq(10, _ => 0), seq(5, _ => 0), seq(5, _ => 0), seq(5, _ => 0), [], [], [], [], 0);
    InitAsn(a0, 5);
    AssignKeeps(a0, 2, 0);
    AssignKeeps(Assigned(a0, 2, 0), 4, 0);
    a := Assigned(Assigned(a0, 2, 0), 4, 0);
  }

  /** Every level above 0 has its decision on the trail. */
  lemma {:induction false} LevelFits(a: Asn)
    requires AsnOk(a)
    ensures a.level <= |a.trail| && (a.level > 0 ==> a.level < |a.reasons|)
  {
    if a.level > 0 {
      StartsGrow(a, a.level - 1);
      TrailBound(a);
    }
  }

  lemma {:induction false} StartsGrow(a: Asn, d: int)
    requires AsnOk(a) && 0 <= d < a.level
    ensures a.starts[d] >= d
  {
    if d > 0 {
      StartsGrow(a, d - 1);
      assert a.lv[a.starts[d - 1]] == d && a.lv[a.starts[d]] == d + 1;
    }
  }

  /** The trail never holds more literals than there are variables. */
  lemma TrailBound(a: Asn)
    requires AsnOk(a)
    ensures |a.trail| == 0 || |a.trail| < |a.reasons|
  {
    if |a.trail| > 0 {
      assert LitOk(a, a.trail[0]);
      assert DistinctVars(a.trail, |a.reasons|);
      DistinctCount(a.trail, |a.reasons|);
      RangeCount(VarsOf(a.trail), |a.reasons|);
    }
  }

  // ---- undoing ----

  /** The places from i on have been undone in these arrays. */
  ghost predicate Undone(a: Asn, vals: seq<int>, levels: seq<int>, reasons: seq<int>, i: int)
    requires Sizes(a)
  {
    && |vals| == |a.vals| && |levels| == |a.levels| && |reasons| == |a.reasons| && (|reasons| > 0 ==> reasons[0] == a.reasons[0])
    && forall m: Lit {:trigger vals[m]} {:trigger a.vals[m]} :: LitOk(a, m) ==>
         var gone := a.vals[m] != 0 && a.pos[Var(m)] >= i;
         && vals[m] == (if gone then 0 else a.vals[m])
         && reasons[Var(m)] == (if gone then 0 else a.reasons[Var(m)])
         && (gone || levels[Var(m)] == a.levels[Var(m)])
  }

  /** b is a without the places from k on, at the level tgt. */
  ghost predicate IsCut(a: Asn, b: Asn, k: int, tgt: int)
    requires Sizes(a)
  {
    && 0 <= k <= |a.trail| && 0 <= tgt <= |a.starts|
    && Undone(a, b.vals, b.levels, b.reasons, k) && b.pos == a.pos
    && b.trail == a.trail[..k] && b.lv == a.lv[..k] && b.why == a.why[..k] && b.starts == a.starts[..tgt] && b.level == tgt
    && (forall j :: 0 <= j < k ==> a.lv[j] <= tgt) && (forall j :: k <= j < |a.trail| ==> a.lv[j] > tgt)
  }

  lemma UndoStart(a: Asn)
    requires Sizes(a) && ValsOk(a) && TrailOk(a)
    ensures Undone(a, a.vals, a.levels, a.reasons, |a.trail|)
  {
    forall m: Lit | LitOk(a, m) && a.vals[m] != 0 ensures a.pos[Var(m)] < |a.trail| {
      PlaceOf0(a, m);
    }
  }

  /** Where an assigned literal is on the trail. */
  lemma PlaceOf0(a: Asn, t: Lit)
    requires Sizes(a) && ValsOk(a) && TrailOk(a) && LitOk(a, t) && a.vals[t] != 0
    ensures 0 <= a.pos[Var(t)] < |a.trail|
    ensures a.trail[a.pos[Var(t)]] == if a.vals[t] == 1 then t else Not(t)
  {
    hide Var, Not, IsPos, Mk;
    LitFacts();
    if a.vals[t] == -1 {
      assert a.vals[Not(t)] == 1;
    }
  }

  lemma PlaceOf(a: Asn, t: Lit)
    requires AsnOk(a) && LitOk(a, t) && a.vals[t] != 0
    ensures 0 <= a.pos[Var(t)] < |a.trail|
    ensures a.trail[a.pos[Var(t)]] == if a.vals[t] == 1 then t else Not(t)
    ensures 0 <= a.levels[Var(t)] <= a.level && a.lv[a.pos[Var(t)]] == a.levels[Var(t)]
    ensures a.why[a.pos[Var(t)]] == a.reasons[Var(t)]
  {
    PlaceOf0(a, t);
    hide Var, Not, IsPos, Mk;
    LitFacts();
  }

  lemma UndoStep(a: Asn, vals: seq<int>, levels: seq<int>, reasons: seq<int>, i: int, m: Lit)
    requires Sizes(a) && ValsOk(a) && TrailOk(a) && 0 < i <= |a.trail| && m == a.trail[i - 1]
    requires Undone(a, vals, levels, reasons, i)
    ensures LitOk(a, m) && LitOk(a, Not(m))
    ensures Undone(a, vals[m := 0][Not(m) := 0], levels[Var(m) := -1], reasons[Var(m) := 0], i - 1)
  {
    hide Var, Not, IsPos, Mk;
    LitFacts();
    assert a.vals[m] == 1 && a.vals[Not(m)] == -1;
    forall n: Lit | LitOk(a, n) ensures a.vals[n] != 0 && a.pos[Var(n)] == i - 1 <==> n == m || n == Not(m) {
      if a.vals[n] != 0 { PlaceOf0(a, n); }
    }
  }

  lemma UndoneSizes(a: Asn, vals: seq<int>, levels: seq<int>, reasons: seq<int>, i: int)
    requires Sizes(a) && TrailOk(a) && 0 < i <= |a.trail| && Undone(a, vals, levels, reasons, i)
    ensures var m := a.trail[i - 1]; 2 <= m < |vals| && 2 <= Not(m) < |vals| && 1 <= Var(m) < |reasons| == |levels|
  {
  }

  lemma LevSizes(lv: seq<int>, why: seq<int>, starts: seq<int>, level: int, tgt: int, i: int)
    requires |lv| == |why| && LevOk(lv, why, starts, level) && 0 <= tgt < level && 0 <= i <= |lv|
    requires i > 0 ==> lv[i - 1] == tgt
    ensures tgt <= |starts|
    ensures forall j :: 0 <= j < i ==> lv[j] <= tgt
  {
  }

  lemma UndoneLevel(a: Asn, vals: seq<int>, levels: seq<int>, reasons: seq<int>, i: int)
    requires Sizes(a) && TrailOk(a) && NotesOk(a) && 0 < i <= |a.trail| && Undone(a, vals, levels, reasons, i)
    ensures 0 <= Var(a.trail[i - 1]) < |levels| && levels[Var(a.trail[i - 1])] == a.lv[i - 1]
  {
  }

  /** Only literals at the target level stop the undoing, or there are none. */
  lemma UndoLevel(lv: seq<int>, why: seq<int>, starts: seq<int>, level: int, tgt: int, i: int)
    requires |lv| == |why| && LevOk(lv, why, starts, level) && 0 <= tgt < level && 0 <= i <= |lv|
    requires forall j :: i <= j < |lv| ==> lv[j] > tgt
    ensures i > 0 ==> lv[i - 1] >= tgt
    ensures i == 0 ==> tgt == 0
  {
    if tgt > 0 {
      assert lv[starts[tgt - 1]] == tgt;
    }
  }

  lemma CutVals(a: Asn, b: Asn, k: int, tgt: int)
    requires AsnOk(a) && IsCut(a, b, k, tgt)
    ensures Sizes(b) && ValsOk(b) && TrailOk(b)
  {
    hide Var, Not, IsPos, Mk, LevOk;
    LitFacts();
    forall m: Lit | LitOk(a, m) ensures b.vals[Not(m)] == -b.vals[m] && -1 <= b.vals[m] <= 1 {
      assert a.vals[Not(m)] == -a.vals[m];
    }
    forall j | 0 <= j < k ensures b.trail[j] == a.trail[j] && b.vals[b.trail[j]] == 1 {
    }
  }

  lemma CutNotes(a: Asn, b: Asn, k: int, tgt: int)
    requires AsnOk(a) && IsCut(a, b, k, tgt) && Sizes(b) && TrailOk(b)
    ensures NotesOk(b)
  {
  }

  lemma CutLev(lv: seq<int>, why: seq<int>, starts: seq<int>, level: int, k: int, tgt: int)
    requires |lv| == |why| && LevOk(lv, why, starts, level) && 0 <= k <= |lv| && 0 <= tgt <= level
    requires forall j :: 0 <= j < k ==> lv[j] <= tgt
    requires forall j :: k <= j < |lv| ==> lv[j] > tgt
    ensures LevOk(lv[..k], why[..k], starts[..tgt], tgt)
  {
  }

  lemma CutKeeps(a: Asn, b: Asn, k: int, tgt: int)
    requires AsnOk(a) && IsCut(a, b, k, tgt)
    ensures AsnOk(b)
  {
    CutVals(a, b, k, tgt);
    CutNotes(a, b, k, tgt);
    hide ValsOk, TrailOk, NotesOk, Undone;
    CutLev(a.lv, a.why, a.starts, a.level, k, tgt);
  }

  /** What was assigned up to the target level stays as it was. */
  lemma CutStays(a: Asn, b: Asn, k: int, tgt: int, m: Lit)
    requires AsnOk(a) && IsCut(a, b, k, tgt) && LitOk(a, m) && a.vals[m] != 0
    ensures if a.levels[Var(m)] <= tgt then b.vals[m] == a.vals[m] && b.levels[Var(m)] == a.levels[Var(m)] else b.vals[m] == 0
  {
    PlaceOf(a, m);
  }
}
