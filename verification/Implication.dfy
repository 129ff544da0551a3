/** Which clause the walk back along the trail derives: the resolvent of the conflict
  with the reasons of the trail's last literals, up to the first literal that alone
  is left of the current level (internal/xo/derive.go:108-166). */
module Implication {
  import opened Lits
  import opened Counting
  import opened Assignment
  import opened Clauses
  import opened Resolution

  /** The literals of clause p other than its first, which it implies. */
  ghost function Others(cls: Cls, p: int): set<Lit>
    requires p in cls && |cls[p]| >= 1
  {
    LitSet(cls[p][1..])
  }

  /** Clause x resolved with the reasons of the literals at place k of the trail and
    later, the last first, as far as their negations turn up. */
  ghost function Resolvent(a: Asn, cls: Cls, x: int, k: int): set<Lit>
    requires Sizes(a) && x in cls && 0 <= k <= |a.trail|
    decreases |a.trail| - k
  {
    if k == |a.trail| then LitSet(cls[x]) else
    var r := Resolvent(a, cls, x, k + 1);
    var m, p := a.trail[k], a.why[k];
    if Not(m) in r && p in cls && |cls[p]| >= 1 then (r - {Not(m)}) + Others(cls, p) else r
  }

  ghost predicate AtNow(a: Asn, n: Lit)
    requires Sizes(a)
  {
    LitOk(a, n) && a.levels[Var(n)] == a.level
  }

  /** Of r only the negation of the literal at place k is of the current level. */
  ghost predicate Alone(a: Asn, r: set<Lit>, k: int)
    requires Sizes(a) && 0 <= k < |a.trail|
  {
    forall n :: n in r && AtNow(a, n) <==> n == Not(a.trail[k])
  }

  ghost predicate IsUip(a: Asn, cls: Cls, x: int, k: int)
    requires Sizes(a) && x in cls && 0 <= k < |a.trail|
  {
    Alone(a, Resolvent(a, cls, x, k + 1), k)
  }

  ghost predicate NoUip(a: Asn, cls: Cls, x: int, i: int)
    requires Sizes(a) && x in cls && -1 <= i < |a.trail|
  {
    forall k :: i < k < |a.trail| ==> !IsUip(a, cls, x, k)
  }

  /** c begins with the negation of the last literal of the trail that alone implies
    the conflict at the current level, and has the literals of the resolvent reached
    there, but for those of level 0. */
  ghost predicate FirstUip(a: Asn, cls: Cls, x: int, c: seq<Lit>)
    requires Sizes(a) && x in cls
  {
    exists i :: 0 <= i < |a.trail| && EndsAt(a, cls, x, c, i)
  }

  ghost predicate EndsAt(a: Asn, cls: Cls, x: int, c: seq<Lit>, i: int)
    requires Sizes(a) && x in cls && 0 <= i < |a.trail|
  {
    && NoUip(a, cls, x, i) && IsUip(a, cls, x, i)
    && |c| >= 1 && c[0] == Not(a.trail[i])
    && forall n :: n in c <==> n in Resolvent(a, cls, x, i + 1) && LitOk(a, n) && a.levels[Var(n)] > 0
  }

  /** There is one such clause, but for the order of its other literals. */
  lemma FirstUipOnce(a: Asn, cls: Cls, x: int, c: seq<Lit>, d: seq<Lit>)
    requires Sizes(a) && x in cls && FirstUip(a, cls, x, c) && FirstUip(a, cls, x, d)
    ensures |c| >= 1 && |d| >= 1 && c[0] == d[0] && LitSet(c) == LitSet(d)
  {
    hide IsUip, Resolvent;
    var i :| 0 <= i < |a.trail| && EndsAt(a, cls, x, c, i);
    var j :| 0 <= j < |a.trail| && EndsAt(a, cls, x, d, j);
    assert i == j;
    assert forall n :: n in c <==> n in d;
  }

  /** The literals noted and still to come are of the resolvent. */
  ghost predicate Backed(a: Asn, w: Walk, i: int, r: set<Lit>)
    requires Sizes(a)
  {
    && (forall n :: n in w.low ==> n in r)
    && forall n :: n in w.sl && 0 <= Var(n) < |a.pos| && a.pos[Var(n)] <= i ==> n in r
  }

  lemma BackedMark(a: Asn, w: Walk, w': Walk, i: int, r: set<Lit>, n: Lit)
    requires Sizes(a) && Backed(a, w, i, r) && n in r
    requires w'.low == w.low || w'.low == w.low + [n]
    requires w'.sl == w.sl || w'.sl == w.sl + [n]
    ensures Backed(a, w', i, r)
  {
  }

  /** The walk has resolved with the reasons of the places after i, and has passed no
    literal at which it should have ended. */
  ghost predicate Walked(a: Asn, cls: Cls, x: int, w: Walk, i: int, r: set<Lit>)
    requires Sizes(a) && x in cls && -1 <= i < |a.trail|
  {
    r == Resolvent(a, cls, x, i + 1) && NoUip(a, cls, x, i) && Backed(a, w, i, r)
  }

  lemma WalkedStart(a: Asn, cls: Cls, x: int, seen: seq<bool>)
    requires Sizes(a) && x in cls
    ensures Walked(a, cls, x, Walk(seen, [], [], 0, 0), |a.trail| - 1, LitSet(cls[x]))
  {
  }

  lemma WalkedMark(a: Asn, cls: Cls, x: int, w: Walk, w': Walk, i: int, r: set<Lit>)
    requires Sizes(a) && x in cls && -1 <= i < |a.trail|
    requires Walked(a, cls, x, w, i, r) && Backed(a, w', i, r)
    ensures Walked(a, cls, x, w', i, r)
  {
  }

  /** A literal of the resolvent at the current level is noted and still to come. */
  lemma NowPending(a: Asn, w: Walk, i: int, r: set<Lit>, n: Lit)
    requires Sizes(a) && WalkOk(a, w, i) && Accounted(a, w, i, r, []) && n in r && AtNow(a, n) && a.level > 0
    ensures n in w.sl && a.pos[Var(n)] <= i
  {
  }

  /** The variable at place i was not seen: its literal is not of the resolvent. */
  lemma WalkedSkip(a: Asn, cls: Cls, x: int, w: Walk, i: int, r: set<Lit>)
    requires AsnOk(a) && Sizes(a) && x in cls && 0 <= i < |a.trail| && a.level > 0
    requires WalkOk(a, w, i) && w.count > 0 && Accounted(a, w, i, r, []) && Walked(a, cls, x, w, i, r)
    requires 0 <= Var(a.trail[i]) < |w.seen| && !w.seen[Var(a.trail[i])]
    ensures Walked(a, cls, x, w, i - 1, r)
  {
    var u := Not(a.trail[i]);
    PendLevel(a, w.seen, w.sl, i);
    UipFalse(a, i);
    VarNot(a.trail[i]);
    if u in r { NowPending(a, w, i, r, u); }
    assert !IsUip(a, cls, x, i);
  }

  /** The literal at place i was seen and others are to come: it is no end of the walk,
    and its reason is resolved with. */
  lemma WalkedTake(a: Asn, cls: Cls, x: int, w: Walk, i: int, r: set<Lit>)
    requires AsnOk(a) && Sizes(a) && x in cls && 0 <= i < |a.trail| && a.level > 0
    requires WalkOk(a, w, i) && w.count > 1 && Accounted(a, w, i, r, []) && Walked(a, cls, x, w, i, r)
    requires 0 <= Var(a.trail[i]) < |w.seen| && w.seen[Var(a.trail[i])]
    requires a.why[i] in cls && |cls[a.why[i]]| >= 1
    ensures Walked(a, cls, x, w.(count := w.count - 1), i - 1, (r - {Not(a.trail[i])}) + Others(cls, a.why[i]))
  {
    hide AsnOk, SeenOk, LowLits, LowSeen, SlOk, Pend, Alone, Accounted, Backed, Resolvent, Others;
    WalkSeen(a, w, i);
    PendLevel(a, w.seen, w.sl, i);
    TakeSeen(a, w, i);
    PendTake(a, w.seen, w.sl, i);
    AnotherPending(a, w, i, r);
    TakenBacked(a, w, i, r, Others(cls, a.why[i]));
    NoUipMore(a, cls, x, i);
    ResolventTake(a, cls, x, i);
  }

  lemma ResolventTake(a: Asn, cls: Cls, x: int, k: int)
    requires Sizes(a) && x in cls && 0 <= k < |a.trail| && Not(a.trail[k]) in Resolvent(a, cls, x, k + 1)
    requires a.why[k] in cls && |cls[a.why[k]]| >= 1
    ensures Resolvent(a, cls, x, k) == (Resolvent(a, cls, x, k + 1) - {Not(a.trail[k])}) + Others(cls, a.why[k])
  {
  }

  lemma NoUipMore(a: Asn, cls: Cls, x: int, i: int)
    requires Sizes(a) && x in cls && 0 <= i < |a.trail| && NoUip(a, cls, x, i) && !IsUip(a, cls, x, i)
    ensures NoUip(a, cls, x, i - 1)
  {
  }

  lemma AnotherPending(a: Asn, w: Walk, i: int, r: set<Lit>)
    requires AsnOk(a) && WalkOk(a, w, i) && w.count > 1 && 0 <= i < |a.trail| && Backed(a, w, i, r)
    requires Not(a.trail[i]) in w.sl && |Pend(a, w.sl, i - 1)| == |Pend(a, w.sl, i)| - 1
    ensures !Alone(a, r, i)
  {
    var v :| v in Pend(a, w.sl, i - 1);
    var n :| n in w.sl && a.pos[Var(n)] <= i - 1 && Var(n) == v;
    UipFalse(a, i);
    VarNot(a.trail[i]);
    assert n in r && AtNow(a, n);
    assert a.pos[Var(a.trail[i])] == i;
  }

  lemma TakenBacked(a: Asn, w: Walk, i: int, r: set<Lit>, s: set<Lit>)
    requires AsnOk(a) && WalkOk(a, w, i) && 0 <= i < |a.trail| && Backed(a, w, i, r) && a.lv[i] == a.level
    requires Not(a.trail[i]) in w.sl
    ensures Backed(a, w.(count := w.count - 1), i - 1, (r - {Not(a.trail[i])}) + s) && Not(a.trail[i]) in r
  {
    UipFalse(a, i);
    VarNot(a.trail[i]);
    assert a.pos[Var(a.trail[i])] == i;
  }

  /** The last literal to come: the walk ends here. */
  lemma WalkedEnd(a: Asn, cls: Cls, x: int, w: Walk, i: int, r: set<Lit>)
    requires AsnOk(a) && Sizes(a) && x in cls && 0 <= i < |a.trail| && a.level > 0
    requires WalkOk(a, w, i) && w.count == 1 && Accounted(a, w, i, r, []) && Walked(a, cls, x, w, i, r)
    requires 0 <= Var(a.trail[i]) < |w.seen| && w.seen[Var(a.trail[i])]
    ensures FirstUip(a, cls, x, [Not(a.trail[i])] + w.low)
  {
    hide AsnOk, SeenOk, LowLits, LowSeen, SlOk, Pend, Alone, Accounted, Backed, Resolvent, NoUip;
    var u := Not(a.trail[i]);
    WalkSeen(a, w, i);
    PendLevel(a, w.seen, w.sl, i);
    TakeSeen(a, w, i);
    PendTake(a, w.seen, w.sl, i);
    PendEmpty(a, w.seen, w.sl, i - 1);
    OnlyLast(a, w, i, r);
    assert EndsAt(a, cls, x, [u] + w.low, i);
  }

  lemma OnlyLast(a: Asn, w: Walk, i: int, r: set<Lit>)
    requires AsnOk(a) && Sizes(a) && 0 <= i < |a.trail| && a.level > 0 && WalkOk(a, w, i)
    requires Accounted(a, w, i, r, []) && Backed(a, w, i, r) && Not(a.trail[i]) in w.sl && a.lv[i] == a.level
    requires forall n :: n in w.sl ==> a.pos[Var(n)] > i - 1
    requires forall n :: n in w.sl && a.pos[Var(n)] == i ==> n == Not(a.trail[i])
    ensures Alone(a, r, i)
    ensures forall n :: n in [Not(a.trail[i])] + w.low <==> n in r && LitOk(a, n) && a.levels[Var(n)] > 0
  {
    var u := Not(a.trail[i]);
    UipFalse(a, i);
    VarNot(a.trail[i]);
    assert a.pos[Var(a.trail[i])] == i;
    forall n | n in r && AtNow(a, n) ensures n == u { NowPending(a, w, i, r, n); }
    forall n | n in r && LitOk(a, n) && a.levels[Var(n)] > 0 ensures n in [u] + w.low {
      assert Rep(a, w, i, n);
    }
  }

  /** The walk is at place i: r is the resolvent so far, and its literals are
    accounted for or still to be marked. */
  ghost predicate OnWay(a: Asn, cls: Cls, x: int, w: Walk, i: int, r: set<Lit>, due: seq<Lit>)
    requires Sizes(a)
  {
    && x in cls && -1 <= i < |a.trail| && WalkOk(a, w, i) && Entailed(cls, r) && Accounted(a, w, i, r, due)
    && Walked(a, cls, x, w, i, r) && forall n :: n in due ==> n in r
  }

  lemma OnWayStart(a: Asn, cls: Cls, x: int, seen: seq<bool>)
    requires Core(a, cls) && Sizes(a) && x in cls && AllFalse(a, cls[x]) && SomeNow(a, cls[x]) && a.level > 0
    requires |seen| == |a.reasons| && SeenOk(a, seen, [], [])
    ensures var c := cls[x]; var i := |a.trail| - 1;
      OnWay(a, cls, x, Walk(seen, [], [], 0, 0), i, LitSet(c), c[0..]) && ToMark(a, i, c, 0) && SomeNow(a, c[0..])
  {
    hide Core, WalkOk, Entailed, Accounted, Walked, ToMark, SomeNow, AllFalse, SeenOk;
    WalkInit(a, cls, x, seen);
    WalkedStart(a, cls, x, seen);
  }

  lemma OnWayParts(a: Asn, cls: Cls, x: int, w: Walk, i: int, r: set<Lit>, c: seq<Lit>, j: int)
    requires Sizes(a) && 0 <= j <= |c| && OnWay(a, cls, x, w, i, r, c[j..])
    ensures WalkOk(a, w, i) && Backed(a, w, i, r) && -1 <= i < |a.trail|
    ensures forall k :: j <= k < |c| ==> c[k] in r
  {
    hide WalkOk, Entailed, Accounted, Backed, NoUip, Resolvent;
    forall k | j <= k < |c| ensures c[k] in r {
      assert c[j..][k - j] == c[k];
    }
  }

  lemma OnWayMarked(a: Asn, cls: Cls, x: int, w: Walk, w': Walk, i: int, r: set<Lit>, c: seq<Lit>, j: int)
    requires Sizes(a) && 0 <= j <= |c| && OnWay(a, cls, x, w, i, r, c[j..]) && WalkOk(a, w', i) && Backed(a, w', i, r)
    requires RepMore(a, w, w', i) && RepAll(a, w', i, c, j, |c|)
    ensures OnWay(a, cls, x, w', i, r, []) && (SomeNow(a, c[j..]) ==> w'.count > 0)
  {
    hide WalkOk, Entailed, Accounted, Backed, NoUip, Resolvent, RepMore, RepAll, SomeNow;
    Marked(a, w, w', i, r, c, j);
    WalkedMark(a, cls, x, w, w', i, r);
  }

  lemma OnWaySkip(a: Asn, cls: Cls, x: int, w: Walk, i: int, r: set<Lit>)
    requires AsnOk(a) && Sizes(a) && OnWay(a, cls, x, w, i, r, []) && w.count > 0 && a.level > 0
    requires 0 <= i < |a.trail| && 0 <= Var(a.trail[i]) < |w.seen| && !w.seen[Var(a.trail[i])]
    ensures OnWay(a, cls, x, w, i - 1, r, [])
  {
    hide AsnOk, WalkOk, Entailed, Accounted, Walked, Rep;
    WalkedSkip(a, cls, x, w, i, r);
    StepSkip(a, w, i);
    AccountedSkip(a, w, i, r);
  }

  /** The literal at place i was seen: the walk ends, or goes on with its reason. */
  lemma OnWayTake(a: Asn, cls: Cls, x: int, w: Walk, i: int, r: set<Lit>)
    requires AsnOk(a) && Sizes(a) && ReasonsOk(a, cls) && OnWay(a, cls, x, w, i, r, []) && w.count > 0 && a.level > 0
    requires 0 <= i < |a.trail| && 0 <= Var(a.trail[i]) < |w.seen| && w.seen[Var(a.trail[i])]
    ensures Not(a.trail[i]) in w.sl && WalkOk(a, w.(count := w.count - 1), i - 1)
    ensures var c := [Not(a.trail[i])] + w.low;
      w.count == 1 ==> LearntOk(a, c, w.target) && Reached(a, c, w.target) && FirstUip(a, cls, x, c) && Entailed(cls, LitSet(c))
    ensures var m := a.trail[i]; var p := a.why[i];
      w.count > 1 ==>
        && p != 0 && p in cls && |cls[p]| >= 1 && ToMark(a, i - 1, cls[p], 1)
        && OnWay(a, cls, x, w.(count := w.count - 1), i - 1, (r - {Not(m)}) + Others(cls, p), cls[p][1..])
  {
    hide AsnOk, ReasonsOk, WalkOk, Entailed, Accounted, Walked, LearntOk, Reached, FirstUip, ToMark;
    WalkTake(a, cls, w, i, r);
    if w.count == 1 {
      WalkedEnd(a, cls, x, w, i, r);
    } else {
      WalkedTake(a, cls, x, w, i, r);
    }
  }
}
