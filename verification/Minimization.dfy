/** Which literals of a derived clause are redundant, how the search for them caches its
  answers, and why the clause without them is still entailed (internal/xo/derive.go:188-282). */
module Minimization {
  import opened Lits
  import opened Counting
  import opened Assignment
  import opened Clauses
  import opened Resolution

  /** The false literal n was forced, at a level marked in lvls, by a clause each of whose
    other literals is one of o or redundant itself. */
  ghost predicate Redundant(a: Asn, cls: Cls, lvls: seq<bool>, o: seq<Lit>, n: Lit)
    requires Sizes(a)
    decreases if LitOk(a, n) then a.pos[Var(n)] else 0
  {
    && LitOk(a, n) && a.vals[n] == -1 && 0 <= a.pos[Var(n)]
    && 0 <= a.levels[Var(n)] < |lvls| && lvls[a.levels[Var(n)]]
    && var p := a.reasons[Var(n)];
       && p != 0 && p in cls
       && forall i :: 1 <= i < |cls[p]| ==>
            var q := cls[p][i];
            LitOk(a, q) && 0 <= a.pos[Var(q)] < a.pos[Var(n)] && (q in o || Redundant(a, cls, lvls, o, q))
  }

  ghost predicate Follows(a: Asn, cls: Cls, lvls: seq<bool>, o: seq<Lit>, n: Lit)
    requires Sizes(a)
  {
    n in o || Redundant(a, cls, lvls, o, n)
  }

  /** What a cache entry says of the false literal n. */
  ghost predicate EntryIs(a: Asn, cls: Cls, lvls: seq<bool>, o: seq<Lit>, e: int, n: Lit)
    requires Sizes(a)
  {
    && (e == 1 ==> Follows(a, cls, lvls, o, n)) && (e == -1 ==> !Follows(a, cls, lvls, o, n))
    && (e == 0 ==> n !in o)
  }

  /** The cache is right, but for the literal at place top, whose entry is on hold. */
  ghost predicate CacheIs(a: Asn, cls: Cls, lvls: seq<bool>, o: seq<Lit>, rdnt: seq<int>, top: int)
    requires Sizes(a)
  {
    && |rdnt| == |a.reasons| && (forall x :: 0 <= x < |rdnt| ==> -1 <= rdnt[x] <= 1)
    && forall n: Lit {:trigger a.vals[n]} :: LitOk(a, n) && a.vals[n] == -1 && a.pos[Var(n)] != top ==>
         EntryIs(a, cls, lvls, o, rdnt[Var(n)], n)
  }

  lemma CacheSizes(a: Asn, cls: Cls, lvls: seq<bool>, o: seq<Lit>, rdnt: seq<int>, top: int)
    requires Sizes(a) && CacheIs(a, cls, lvls, o, rdnt, top)
    ensures |rdnt| == |a.reasons| && forall x :: 0 <= x < |rdnt| ==> -1 <= rdnt[x] <= 1
  {
  }

  lemma CacheAt(a: Asn, cls: Cls, lvls: seq<bool>, o: seq<Lit>, rdnt: seq<int>, top: int, m: Lit)
    requires Sizes(a) && CacheIs(a, cls, lvls, o, rdnt, top) && LitOk(a, m) && a.vals[m] == -1 && a.pos[Var(m)] != top
    ensures 0 <= Var(m) < |rdnt| && EntryIs(a, cls, lvls, o, rdnt[Var(m)], m)
  {
  }

  /** A right entry for m, or any entry while it is on hold. */
  lemma CacheSet(a: Asn, cls: Cls, lvls: seq<bool>, o: seq<Lit>, rdnt: seq<int>, top: int, m: Lit, e: int)
    requires AsnOk(a) && Sizes(a) && CacheIs(a, cls, lvls, o, rdnt, top) && LitOk(a, m) && a.vals[m] == -1 && -1 <= e <= 1
    requires a.pos[Var(m)] == top || EntryIs(a, cls, lvls, o, e, m)
    ensures 0 <= Var(m) < |rdnt| && CacheIs(a, cls, lvls, o, rdnt[Var(m) := e], top)
  {
    hide AsnOk, EntryIs;
    var rdnt' := rdnt[Var(m) := e];
    forall n: Lit {:trigger a.vals[n]} | LitOk(a, n) && a.vals[n] == -1 && a.pos[Var(n)] != top
      ensures EntryIs(a, cls, lvls, o, rdnt'[Var(n)], n)
    {
      if Var(n) == Var(m) { SameFalse(a, m, n); }
    }
  }

  /** The entry of m is put on hold. */
  lemma CacheHold(a: Asn, cls: Cls, lvls: seq<bool>, o: seq<Lit>, rdnt: seq<int>, m: Lit)
    requires AsnOk(a) && Sizes(a) && CacheIs(a, cls, lvls, o, rdnt, -1) && LitOk(a, m) && a.vals[m] == -1
    ensures 0 <= Var(m) < |rdnt| && 0 <= a.pos[Var(m)] && CacheIs(a, cls, lvls, o, rdnt[Var(m) := 0], a.pos[Var(m)])
  {
    PlaceOf(a, m);
    hide AsnOk, EntryIs;
    forall n: Lit {:trigger a.vals[n]} | LitOk(a, n) && a.vals[n] == -1 && a.pos[Var(n)] != a.pos[Var(m)]
      ensures a.pos[Var(n)] != -1
    {
      PlaceOf(a, n);
    }
  }

  /** And gets back what it was, m being one of o. */
  lemma CacheFree(a: Asn, cls: Cls, lvls: seq<bool>, o: seq<Lit>, rdnt: seq<int>, m: Lit)
    requires AsnOk(a) && Sizes(a) && LitOk(a, m) && a.vals[m] == -1 && m in o && CacheIs(a, cls, lvls, o, rdnt, a.pos[Var(m)])
    ensures 0 <= Var(m) < |rdnt| && CacheIs(a, cls, lvls, o, rdnt[Var(m) := 1], -1)
  {
    hide AsnOk, Redundant;
    var rdnt' := rdnt[Var(m) := 1];
    forall n: Lit {:trigger a.vals[n]} | LitOk(a, n) && a.vals[n] == -1
      ensures EntryIs(a, cls, lvls, o, rdnt'[Var(n)], n)
    {
      if Var(n) == Var(m) {
        SameFalse(a, m, n);
      } else if a.pos[Var(n)] == a.pos[Var(m)] {
        SamePlace(a, m, n);
      }
    }
  }

  lemma SamePlace(a: Asn, m: Lit, n: Lit)
    requires AsnOk(a) && LitOk(a, m) && LitOk(a, n) && a.vals[m] == -1 == a.vals[n] && a.pos[Var(m)] == a.pos[Var(n)]
    ensures m == n
  {
    PlaceOf(a, m);
    PlaceOf(a, n);
    hide AsnOk;
    LitFacts();
  }

  /** Only variables of the literals in rl have got an entry. */
  ghost predicate Visited(rdnt0: seq<int>, rdnt1: seq<int>, rl: seq<Lit>) {
    |rdnt0| == |rdnt1| && forall x :: 0 <= x < |rdnt0| && rdnt1[x] != 0 && rdnt0[x] == 0 ==> x in VarsOf(rl)
  }

  lemma VisitedStep(rdnt0: seq<int>, rdnt1: seq<int>, rdnt2: seq<int>, rl0: seq<Lit>, rl1: seq<Lit>)
    requires Visited(rdnt0, rdnt1, rl0) && Visited(rdnt1, rdnt2, rl1) && rl0 <= rl1
    ensures Visited(rdnt0, rdnt2, rl1)
  {
  }

  lemma VisitedRefl(rdnt: seq<int>, rl: seq<Lit>)
    ensures Visited(rdnt, rdnt, rl)
  {
  }

  lemma VisitedSet(rdnt0: seq<int>, rdnt1: seq<int>, rl: seq<Lit>, m: Lit, b: int)
    requires Visited(rdnt0, rdnt1, rl) && 0 <= Var(m) < |rdnt0| && m in rl
    ensures Visited(rdnt0, rdnt1[Var(m) := b], rl)
  {
  }

  /** Giving an entry back the value it had before the search. */
  lemma VisitedReset(rdnt0: seq<int>, rdnt1: seq<int>, rl: seq<Lit>, m: Lit)
    requires 0 <= Var(m) < |rdnt0| && Visited(rdnt0[Var(m) := 0], rdnt1, rl) && m in rl
    ensures Visited(rdnt0, rdnt1[Var(m) := 1], rl)
  {
  }

  lemma VarFits(a: Asn, m: Lit)
    requires Sizes(a) && LitOk(a, m)
    ensures 1 <= Var(m) < |a.reasons| == |a.levels|
  {
  }

  ghost predicate BeforeAll(a: Asn, c: seq<Lit>, m: Lit)
    requires Sizes(a) && LitOk(a, m)
  {
    && |c| >= 1 && c[0] == Not(m)
    && forall i :: 1 <= i < |c| ==> LitOk(a, c[i]) && a.vals[c[i]] == -1 && a.pos[Var(c[i])] < a.pos[Var(m)]
  }

  /** The reason of a false literal m: its literals after the first were false before. */
  lemma ReasonOf(a: Asn, cls: Cls, m: Lit)
    requires AsnOk(a) && ReasonsOk(a, cls) && LitOk(a, m) && a.vals[m] == -1
    ensures 0 <= a.pos[Var(m)] && 0 <= a.levels[Var(m)] <= a.level && 0 <= Var(m) < |a.reasons| == |a.levels|
    ensures a.reasons[Var(m)] != 0 ==> a.reasons[Var(m)] in cls && BeforeAll(a, cls[a.reasons[Var(m)]], m)
  {
    PlaceOf(a, m);
    if a.reasons[Var(m)] != 0 {
      assert Forces(a, cls[a.reasons[Var(m)]], a.pos[Var(m)]);
    }
  }

  /** Whether m is redundant, by its reason. */
  lemma RedundantIs(a: Asn, cls: Cls, lvls: seq<bool>, o: seq<Lit>, m: Lit)
    requires AsnOk(a) && Sizes(a) && ReasonsOk(a, cls) && LitOk(a, m) && a.vals[m] == -1 && |lvls| > a.level
    ensures 0 <= Var(m) < |a.levels| && 0 <= a.levels[Var(m)] < |lvls|
    ensures var p := a.reasons[Var(m)];
      Redundant(a, cls, lvls, o, m) <==>
        lvls[a.levels[Var(m)]] && p != 0 && p in cls && forall i :: 1 <= i < |cls[p]| ==> Follows(a, cls, lvls, o, cls[p][i])
  {
    ReasonOf(a, cls, m);
    PlaceOf(a, m);
    hide AsnOk, ReasonsOk;
    var p := a.reasons[Var(m)];
    if p != 0 {
      forall i | 1 <= i < |cls[p]| ensures LitOk(a, cls[p][i]) && 0 <= a.pos[Var(cls[p][i])] < a.pos[Var(m)] {
        PlaceOf(a, cls[p][i]);
      }
    }
  }

  /** If no kept literal holds then nothing that follows does, by induction on the place
    on the trail. */
  lemma {:induction false} RedundantFalse(a: Asn, cls: Cls, lvls: seq<bool>, o: seq<Lit>, kept: seq<Lit>, v: Valuation, n: Lit)
    requires AsnOk(a) && Sizes(a) && ReasonsOk(a, cls) && ModelsCls(v, cls)
    requires forall m :: m in o && m !in kept ==> Redundant(a, cls, lvls, o, m)
    requires forall m :: m in kept ==> !Holds(v, m)
    requires LitOk(a, n) && Follows(a, cls, lvls, o, n)
    ensures !Holds(v, n)
    decreases a.pos[Var(n)]
  {
    if n !in kept {
      assert Redundant(a, cls, lvls, o, n);
      ReasonOf(a, cls, n);
      hide AsnOk, ReasonsOk;
      var c := cls[a.reasons[Var(n)]];
      assert Sat(v, c);
      var t :| t in c && Holds(v, t);
      var i :| 0 <= i < |c| && c[i] == t;
      if i > 0 {
        RedundantFalse(a, cls, lvls, o, kept, v, t);
      }
      HoldsNot(v, n);
    }
  }

  /** The shortened clause is still entailed. */
  lemma KeptEntailed(a: Asn, cls: Cls, lvls: seq<bool>, u: Lit, o: seq<Lit>, kept: seq<Lit>)
    requires AsnOk(a) && Sizes(a) && ReasonsOk(a, cls) && Entailed(cls, LitSet([u] + o))
    requires forall m :: m in o ==> LitOk(a, m)
    requires forall m :: m in o && m !in kept ==> Redundant(a, cls, lvls, o, m)
    ensures Entailed(cls, LitSet([u] + kept))
  {
    hide Redundant, AsnOk, ReasonsOk;
    var c, d := [u] + o, [u] + kept;
    forall v | ModelsCls(v, cls) ensures AnyHolds(v, LitSet(d)) {
      assert AnyHolds(v, LitSet(c));
      var n :| n in c && Holds(v, n);
      if n == u {
        assert u in d;
      } else if m :| m in kept && Holds(v, m) {
        assert m in d;
      } else {
        RedundantFalse(a, cls, lvls, o, kept, v, n);
      }
    }
  }

  // ---- the pass over the derived clause ----

  /** The literals of s that are not redundant for o, in their order. */
  ghost function Needed(a: Asn, cls: Cls, lvls: seq<bool>, o: seq<Lit>, s: seq<Lit>): seq<Lit>
    requires Sizes(a)
  {
    if |s| == 0 then []
    else
      var r := Needed(a, cls, lvls, o, s[..|s| - 1]);
      if Redundant(a, cls, lvls, o, s[|s| - 1]) then r else r + [s[|s| - 1]]
  }

  lemma NeededNone(a: Asn, cls: Cls, lvls: seq<bool>, o: seq<Lit>)
    requires Sizes(a)
    ensures Needed(a, cls, lvls, o, []) == []
  {
  }

  lemma NeededNext(a: Asn, cls: Cls, lvls: seq<bool>, o: seq<Lit>, s: seq<Lit>, m: Lit)
    requires Sizes(a)
    ensures Needed(a, cls, lvls, o, s + [m]) ==
      Needed(a, cls, lvls, o, s) + if Redundant(a, cls, lvls, o, m) then [] else [m]
  {
    assert (s + [m])[..|s|] == s;
  }

  lemma {:induction false} NeededIs(a: Asn, cls: Cls, lvls: seq<bool>, o: seq<Lit>, s: seq<Lit>)
    requires Sizes(a)
    ensures forall m :: m in Needed(a, cls, lvls, o, s) <==> m in s && !Redundant(a, cls, lvls, o, m)
  {
    hide Redundant;
    if |s| > 0 {
      NeededIs(a, cls, lvls, o, s[..|s| - 1]);
      assert forall m :: m in s <==> m in s[..|s| - 1] || m == s[|s| - 1];
    }
  }

  /** The derived clause c0 without its redundant literals. */
  ghost function Shortened(a: Asn, cls: Cls, lvls: seq<bool>, c0: seq<Lit>): seq<Lit>
    requires Sizes(a) && |c0| >= 1
  {
    [c0[0]] + Needed(a, cls, lvls, c0[1..], c0[1..])
  }

  lemma {:induction false} NeededLearnt(a: Asn, cls: Cls, lvls: seq<bool>, o: seq<Lit>, c0: seq<Lit>, i: int, target: int)
    requires Sizes(a) && LearntOk(a, c0, target) && 1 <= i <= |c0|
    ensures LearntOk(a, [c0[0]] + Needed(a, cls, lvls, o, c0[1..i]), target)
    ensures forall m :: m in [c0[0]] + Needed(a, cls, lvls, o, c0[1..i]) ==> m in c0[..i]
    decreases i
  {
    hide Redundant, LearntOk;
    if i == 1 {
      assert c0[1..1] == [] && [c0[0]] + Needed(a, cls, lvls, o, c0[1..1]) == [c0[0]];
      LearntFirst(a, c0, target);
    } else {
      NeededLearnt(a, cls, lvls, o, c0, i - 1, target);
      assert c0[1..i] == c0[1..i - 1] + [c0[i - 1]] && c0[..i] == c0[..i - 1] + [c0[i - 1]];
      NeededNext(a, cls, lvls, o, c0[1..i - 1], c0[i - 1]);
      var kept := [c0[0]] + Needed(a, cls, lvls, o, c0[1..i - 1]);
      KeptLearnt(a, c0, kept, i - 1, target);
      var kept' := [c0[0]] + Needed(a, cls, lvls, o, c0[1..i]);
      assert kept' == if Redundant(a, cls, lvls, o, c0[i - 1]) then kept else kept + [c0[i - 1]];
      assert forall m :: m in kept + [c0[i - 1]] ==> m in kept || m == c0[i - 1];
      assert c0[..i][i - 1] == c0[i - 1];
      assert forall m :: m in c0[..i - 1] ==> m in c0[..i];
    }
  }

  lemma LearntFirst(a: Asn, c0: seq<Lit>, target: int)
    requires Sizes(a) && LearntOk(a, c0, target)
    ensures LearntOk(a, [c0[0]], target)
  {
  }

  lemma KeptLearnt(a: Asn, c0: seq<Lit>, kept: seq<Lit>, i: int, target: int)
    requires Sizes(a) && LearntOk(a, c0, target) && 1 <= i < |c0| && LearntOk(a, kept, target) && kept[0] == c0[0]
    requires forall m :: m in kept ==> m in c0[..i]
    ensures LearntOk(a, kept + [c0[i]], target) && LitOk(a, c0[i])
  {
    forall k | 0 <= k < |kept| ensures Var(kept[k]) != Var(c0[i]) {
      assert kept[k] in c0[..i];
      var x :| 0 <= x < i && c0[x] == kept[k];
    }
  }

  /** The shortened clause is derived as well. */
  lemma ShortenedOk(a: Asn, cls: Cls, lvls: seq<bool>, c0: seq<Lit>, target: int)
    requires AsnOk(a) && Sizes(a) && ReasonsOk(a, cls) && LearntOk(a, c0, target) && Entailed(cls, LitSet(c0))
    ensures var d := Shortened(a, cls, lvls, c0);
      Entailed(cls, LitSet(d)) && LearntOk(a, d, target) && forall m :: m in d ==> m in c0
  {
    hide LearntOk, Redundant, Entailed, AsnOk, ReasonsOk;
    LearntClause(a, c0, target);
    var o := c0[1..];
    assert c0[1..|c0|] == o && c0[..|c0|] == c0 && c0 == [c0[0]] + o;
    NeededLearnt(a, cls, lvls, o, c0, |c0|, target);
    NeededIs(a, cls, lvls, o, o);
    forall m | m in o ensures LitOk(a, m) {
      var x :| 0 <= x < |o| && o[x] == m;
      assert c0[x + 1] == m;
      LearntLit(a, c0, target, x + 1);
    }
    KeptEntailed(a, cls, lvls, c0[0], o, Needed(a, cls, lvls, o, o));
  }

  /** The start of the pass: the cache has just the literals of the clause. */
  lemma CacheStart(a: Asn, cls: Cls, lvls: seq<bool>, rdnt: seq<int>, c0: seq<Lit>, target: int)
    requires AsnOk(a) && Sizes(a) && LearntOk(a, c0, target) && |rdnt| == |a.reasons|
    requires forall x :: 0 <= x < |rdnt| ==> rdnt[x] == if x in VarsOf(c0[1..]) then 1 else 0
    ensures CacheIs(a, cls, lvls, c0[1..], rdnt, -1)
  {
    hide AsnOk, Redundant;
    var o := c0[1..];
    forall n: Lit {:trigger a.vals[n]} | LitOk(a, n) && a.vals[n] == -1 ensures Var(n) in VarsOf(o) <==> n in o {
      if Var(n) in VarsOf(o) {
        var m :| m in o && Var(m) == Var(n);
        var k :| 0 <= k < |o| && o[k] == m;
        assert c0[k + 1] == m;
        SameFalse(a, m, n);
      }
    }
  }

  lemma SameFalse(a: Asn, m: Lit, n: Lit)
    requires AsnOk(a) && LitOk(a, m) && LitOk(a, n) && a.vals[m] == -1 == a.vals[n] && Var(m) == Var(n)
    ensures m == n
  {
    hide Var, IsPos, Mk, Not, LevOk, NotesOk, TrailOk;
    LitFacts();
    assert a.vals[Not(m)] == 1;
    assert n == m || n == Not(m);
  }

  /** Cache entries belong to visited literals, or to those still to be looked at. */
  ghost predicate Left(rdnt: seq<int>, rl: seq<Lit>, due: seq<Lit>) {
    forall x :: 0 <= x < |rdnt| && rdnt[x] != 0 ==> x in VarsOf(rl) || x in VarsOf(due)
  }

  lemma LeftStep(rdnt0: seq<int>, rdnt1: seq<int>, rl0: seq<Lit>, rl1: seq<Lit>, c0: seq<Lit>, i: int)
    requires 0 <= i < |c0| && Left(rdnt0, rl0, c0[i..]) && Visited(rdnt0, rdnt1, rl1) && rl0 <= rl1 && c0[i] in rl1
    ensures Left(rdnt1, rl1, c0[i + 1..])
  {
  }

  lemma LeftEnd(rdnt: seq<int>, rl: seq<Lit>, due: seq<Lit>)
    requires Left(rdnt, rl, due) && due == []
    ensures forall x :: 0 <= x < |rdnt| && rdnt[x] != 0 ==> x in VarsOf(rl)
  {
  }

  /** Is some literal of c at level l? */
  ghost predicate AtLevel(levels: seq<int>, c: seq<Lit>, l: int) {
    exists m :: m in c && 0 <= Var(m) < |levels| && levels[Var(m)] == l
  }

  /** The levels of the literals of c are no longer marked, and the others as before. */
  ghost predicate Cleared(levels: seq<int>, c: seq<Lit>, l0: seq<bool>, l1: seq<bool>) {
    |l1| == |l0| && forall l :: 0 <= l < |l0| ==> (l1[l] <==> l0[l] && !AtLevel(levels, c, l))
  }

  lemma AtNone(levels: seq<int>, c: seq<Lit>)
    requires c == []
    ensures forall l :: !AtLevel(levels, c, l)
  {
  }

  lemma AtNext(levels: seq<int>, c: seq<Lit>, m: Lit)
    requires 0 <= Var(m) < |levels|
    ensures forall l :: AtLevel(levels, c + [m], l) <==> AtLevel(levels, c, l) || l == levels[Var(m)]
  {
    assert m in c + [m];
  }

  lemma LearntLit(a: Asn, c0: seq<Lit>, target: int, i: int)
    requires Sizes(a) && LearntOk(a, c0, target) && 1 <= i < |c0|
    ensures LitOk(a, c0[i]) && a.vals[c0[i]] == -1 && Var(c0[i]) in VarsOf(c0[1..]) && 1 <= Var(c0[i]) < |a.reasons|
  {
  }

  lemma LearntVars(a: Asn, c: seq<Lit>, target: int)
    requires Sizes(a) && LearntOk(a, c, target)
    ensures |c| >= 1 && forall k :: 0 <= k < |c| ==> 1 <= Var(c[k]) < |a.levels| == |a.reasons| && 0 <= a.levels[Var(c[k])] <= a.level
  {
  }

  lemma LearntClause(a: Asn, c: seq<Lit>, target: int)
    requires Sizes(a) && LearntOk(a, c, target)
    ensures ClauseOk(|a.vals|, c) && |c| >= 1
  {
  }
}
