/** The marks of the levels of a derived clause.  Minimisation takes them back for the
  levels of the literals it keeps, on the ground that each level keeps one
  (internal/xo/derive.go:220-230).  Here is when that is so. */
module LevelMarks {
  import opened Lits
  import opened Counting
  import opened Assignment
  import opened Clauses
  import opened Resolution
  import opened Minimization

  /** The literals of o are false, above level 0, and their levels are those marked. */
  ghost predicate MarkedFor(a: Asn, o: seq<Lit>, lvls: seq<bool>)
    requires Sizes(a)
  {
    && (forall n :: n in o ==> LitOk(a, n) && a.vals[n] == -1 && 0 < a.levels[Var(n)] < |lvls|)
    && forall l :: 0 <= l < |lvls| ==> (lvls[l] <==> AtLevel(a.levels, o, l))
  }

  /** Each level of o is that of a literal that is kept. */
  ghost predicate LevelsKept(a: Asn, cls: Cls, lvls: seq<bool>, o: seq<Lit>)
    requires Sizes(a)
  {
    forall l :: AtLevel(a.levels, o, l) ==> AtLevel(a.levels, Needed(a, cls, lvls, o, o), l)
  }

  ghost predicate AlwaysKept(a: Asn, cls: Cls)
    requires Sizes(a)
  {
    forall o, lvls :: MarkedFor(a, o, lvls) && |lvls| > a.level ==> LevelsKept(a, cls, lvls, o)
  }

  /** The literal at place k was decided, or its reason has another literal of the same
    level, or of level 0. */
  ghost predicate AnchoredAt(a: Asn, cls: Cls, k: int)
    requires Sizes(a) && 0 <= k < |a.trail|
  {
    a.why[k] in cls ==> AnchoredBy(a, cls[a.why[k]], a.lv[k])
  }

  ghost predicate AnchoredBy(a: Asn, c: seq<Lit>, l: int)
    requires Sizes(a)
  {
    exists i :: 1 <= i < |c| && LitOk(a, c[i]) && (a.levels[Var(c[i])] == l || a.levels[Var(c[i])] == 0)
  }

  ghost predicate Anchored(a: Asn, cls: Cls)
    requires Sizes(a)
  {
    forall k :: 0 <= k < |a.trail| && a.lv[k] > 0 ==> AnchoredAt(a, cls, k)
  }

  /** A redundant literal has an earlier one of its level in o. */
  lemma {:induction false} Earlier(a: Asn, cls: Cls, lvls: seq<bool>, o: seq<Lit>, n: Lit) returns (q: Lit)
    requires AsnOk(a) && ReasonsOk(a, cls) && Anchored(a, cls) && MarkedFor(a, o, lvls) && Redundant(a, cls, lvls, o, n)
    ensures q in o && LitOk(a, q) && a.levels[Var(q)] == a.levels[Var(n)] && 0 <= a.pos[Var(q)] < a.pos[Var(n)]
    decreases a.pos[Var(n)]
  {
    PlaceOf(a, n);
    hide AsnOk, ReasonsOk;
    var k := a.pos[Var(n)];
    var p := a.reasons[Var(n)];
    RedundantLevel(a, cls, lvls, o, n);
    assert AnchoredAt(a, cls, k);
    var i :| 1 <= i < |cls[p]| && LitOk(a, cls[p][i]) && (a.levels[Var(cls[p][i])] == a.lv[k] || a.levels[Var(cls[p][i])] == 0);
    q := cls[p][i];
    if q !in o {
      RedundantLevel(a, cls, lvls, o, q);
      q := Earlier(a, cls, lvls, o, q);
    }
  }

  lemma RedundantLevel(a: Asn, cls: Cls, lvls: seq<bool>, o: seq<Lit>, n: Lit)
    requires Sizes(a) && MarkedFor(a, o, lvls) && Redundant(a, cls, lvls, o, n)
    ensures a.levels[Var(n)] > 0
  {
    var m :| m in o && 0 <= Var(m) < |a.levels| && a.levels[Var(m)] == a.levels[Var(n)];
  }

  /** The earliest literal of a level is kept. */
  lemma {:induction false} SomeKept(a: Asn, cls: Cls, lvls: seq<bool>, o: seq<Lit>, n: Lit) returns (q: Lit)
    requires AsnOk(a) && ReasonsOk(a, cls) && Anchored(a, cls) && MarkedFor(a, o, lvls) && n in o && LitOk(a, n)
    ensures q in o && !Redundant(a, cls, lvls, o, q) && LitOk(a, q) && a.levels[Var(q)] == a.levels[Var(n)]
    decreases a.pos[Var(n)]
  {
    hide AsnOk, ReasonsOk, Anchored, Redundant;
    AsnSizes(a);
    q := n;
    if Redundant(a, cls, lvls, o, n) {
      q := Earlier(a, cls, lvls, o, n);
      q := SomeKept(a, cls, lvls, o, q);
    }
  }

  lemma AnchoredKept(a: Asn, cls: Cls, lvls: seq<bool>, o: seq<Lit>)
    requires AsnOk(a) && Sizes(a) && ReasonsOk(a, cls) && Anchored(a, cls) && MarkedFor(a, o, lvls)
    ensures LevelsKept(a, cls, lvls, o)
  {
    hide AsnOk, ReasonsOk, Anchored, Redundant;
    NeededIs(a, cls, lvls, o, o);
    forall l | AtLevel(a.levels, o, l) ensures AtLevel(a.levels, Needed(a, cls, lvls, o, o), l) {
      var n :| n in o && 0 <= Var(n) < |a.levels| && a.levels[Var(n)] == l;
      var q := SomeKept(a, cls, lvls, o, n);
      assert q in Needed(a, cls, lvls, o, o);
    }
  }

  /** u is false by the reason c, whose other literals are false, earlier, and of other
    levels above 0. */
  ghost predicate Adrift(a: Asn, cls: Cls, u: Lit, c: seq<Lit>, l: int)
    requires Sizes(a)
  {
    && LitOk(a, u) && a.vals[u] == -1 && 0 < l == a.levels[Var(u)] <= a.level && 0 <= a.pos[Var(u)]
    && a.reasons[Var(u)] != 0 && a.reasons[Var(u)] in cls && cls[a.reasons[Var(u)]] == c && |c| >= 1
    && forall i :: 1 <= i < |c| ==>
         LitOk(a, c[i]) && a.vals[c[i]] == -1 && 0 < a.levels[Var(c[i])] <= a.level && a.levels[Var(c[i])] != l
         && 0 <= a.pos[Var(c[i])] < a.pos[Var(u)]
  }

  lemma UnanchoredAdrift(a: Asn, cls: Cls, k: int)
    requires AsnOk(a) && Sizes(a) && ReasonsOk(a, cls) && 0 <= k < |a.trail| && a.lv[k] > 0 && !AnchoredAt(a, cls, k) && 0 !in cls
    ensures a.why[k] in cls && Adrift(a, cls, Not(a.trail[k]), cls[a.why[k]], a.lv[k])
  {
    var c := cls[a.why[k]];
    UipFalse(a, k);
    VarNot(a.trail[k]);
    assert Forces(a, c, k);
    assert a.pos[Var(a.trail[k])] == k;
    forall i | 1 <= i < |c| ensures 0 < a.levels[Var(c[i])] <= a.level && 0 <= a.pos[Var(c[i])] {
      PlaceOf(a, c[i]);
    }
  }

  lemma AdriftRedundant(a: Asn, cls: Cls, u: Lit, c: seq<Lit>, l: int, o: seq<Lit>, lvls: seq<bool>)
    requires Sizes(a) && Adrift(a, cls, u, c, l) && l < |lvls| && lvls[l] && forall i :: 1 <= i < |c| ==> c[i] in o
    ensures Redundant(a, cls, lvls, o, u)
  {
  }

  /** Then a clause of u and the others loses the level of u. */
  lemma AdriftLost(a: Asn, cls: Cls, u: Lit, c: seq<Lit>, l: int) returns (o: seq<Lit>, lvls: seq<bool>)
    requires Sizes(a) && Adrift(a, cls, u, c, l)
    ensures MarkedFor(a, o, lvls) && |lvls| > a.level && !LevelsKept(a, cls, lvls, o)
  {
    hide Redundant;
    o := [u] + c[1..];
    lvls := seq(a.level + 1, j => AtLevel(a.levels, o, j));
    forall i | 1 <= i < |c| ensures c[i] in o { assert c[i] == o[i]; }
    forall n | n in o ensures n == u || exists i :: 1 <= i < |c| && c[i] == n {
      var j :| 0 <= j < |o| && o[j] == n;
      assert j > 0 ==> c[j] == n;
    }
    assert u in o;
    assert AtLevel(a.levels, o, l);
    AdriftRedundant(a, cls, u, c, l, o, lvls);
    NeededIs(a, cls, lvls, o, o);
    assert !AtLevel(a.levels, Needed(a, cls, lvls, o, o), l);
  }

  /** Each level of each clause keeps a literal exactly if every literal above level 0 was
    decided or forced by one of its own level or of level 0. */
  lemma KeptExactly(a: Asn, cls: Cls)
    requires AsnOk(a) && Sizes(a) && ReasonsOk(a, cls) && 0 !in cls
    ensures AlwaysKept(a, cls) <==> Anchored(a, cls)
  {
    hide AsnOk, ReasonsOk, MarkedFor, LevelsKept, AnchoredAt, Adrift;
    if Anchored(a, cls) {
      forall o, lvls | MarkedFor(a, o, lvls) && |lvls| > a.level ensures LevelsKept(a, cls, lvls, o) {
        AnchoredKept(a, cls, lvls, o);
      }
    } else {
      var k :| 0 <= k < |a.trail| && a.lv[k] > 0 && !AnchoredAt(a, cls, k);
      UnanchoredAdrift(a, cls, k);
      var o, lvls := AdriftLost(a, cls, Not(a.trail[k]), cls[a.why[k]], a.lv[k]);
    }
  }

  /** Then no mark is left of a clause whose levels alone were marked. */
  lemma NoneLeft(a: Asn, cls: Cls, c0: seq<Lit>, lvls: seq<bool>, lvls': seq<bool>)
    requires AsnOk(a) && Sizes(a) && ReasonsOk(a, cls) && Anchored(a, cls) && |c0| >= 1 && MarkedFor(a, c0[1..], lvls)
    requires Cleared(a.levels, Shortened(a, cls, lvls, c0), lvls, lvls')
    ensures forall l :: 0 <= l < |lvls'| ==> !lvls'[l]
  {
    hide AsnOk, ReasonsOk, Anchored;
    AnchoredKept(a, cls, lvls, c0[1..]);
    var kept := Needed(a, cls, lvls, c0[1..], c0[1..]);
    forall l | 0 <= l < |lvls'| ensures !lvls'[l] {
      if lvls[l] {
        var n :| n in kept && 0 <= Var(n) < |a.levels| && a.levels[Var(n)] == l;
        assert n in [c0[0]] + kept;
      }
    }
  }

  /** Two assumptions, the second of which goes before a literal that a clause derived
    later forces by the first alone: its negation is redundant beside that of the first,
    and its level stays marked. */
  lemma LeftMarked() returns (a: Asn, cls: Cls, c0: seq<Lit>, lvls: seq<bool>)
    ensures AsnOk(a) && Sizes(a) && ReasonsOk(a, cls) && LearntOk(a, c0, 2) && MarkedFor(a, c0[1..], lvls)
    ensures |lvls| > 2 && lvls[2] && !AtLevel(a.levels, Shortened(a, cls, lvls, c0), 2)
  {
    var b := TwoDecided();
    hide AsnOk;
    a := Assigned(Assigned(b, 6, 1), 8, 0);
    AssignKeeps(b, 6, 1);
    AssignKeeps(Assigned(b, 6, 1), 8, 0);
    cls, c0, lvls := map[1 := [6, 3]], [9, 7, 3], [false, true, true, false];
    FourAssigned(a, cls, c0);
    assert c0[1..] == [7, 3];
    FourMarked(a, cls, [7, 3], lvls);
  }

  /** Variables 1 and 2 were decided, 3 was forced by 1, and 4 decided. */
  ghost predicate IsFour(a: Asn) {
    a == Asn([0, 0, 1, -1, 1, -1, 1, -1, 1, -1], [0, 1, 2, 2, 3], [0, 0, 0, 1, 0], [0, 0, 1, 2, 3],
      [2, 4, 6, 8], [1, 2, 2, 3], [0, 0, 1, 0], [0, 1, 3], 3)
  }

  lemma FourAssigned(a: Asn, cls: Cls, c0: seq<Lit>)
    requires IsFour(a) && cls == map[1 := [6, 3]] && c0 == [9, 7, 3]
    ensures Sizes(a) && ReasonsOk(a, cls) && LearntOk(a, c0, 2)
  {
    assert Forces(a, cls[1], 2);
  }

  lemma FourMarked(a: Asn, cls: Cls, o: seq<Lit>, lvls: seq<bool>)
    requires IsFour(a) && Sizes(a) && cls == map[1 := [6, 3]] && o == [7, 3] && lvls == [false, true, true, false]
    ensures MarkedFor(a, o, lvls) && !AtLevel(a.levels, [9] + Needed(a, cls, lvls, o, o), 2)
  {
    assert 7 in o && 3 in o && 7 / 2 == 3 && 3 / 2 == 1;
    forall l | 0 <= l < 4 ensures lvls[l] <==> AtLevel(a.levels, o, l) {
      assert a.levels[Var(7)] == 2 && a.levels[Var(3)] == 1;
    }
    assert Redundant(a, cls, lvls, o, 7);
    hide Redundant;
    NeededIs(a, cls, lvls, o, o);
  }
}
