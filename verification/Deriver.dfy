/** Conflict analysis: deriving a clause from a conflict and minimising it
  (internal/xo/derive.go). */
module Derivers {
  import opened Lits
  import opened Counting
  import opened Assignment
  import opened Clauses
  import opened Watching
  import opened Resolution
  import opened Implication
  import opened Minimization
  import opened Headers
  import opened FlatStore
  import opened Database
  import opened Guesses
  import opened Trails

  /** The clause at which a walk ends, the levels marked then, and its rank. */
  datatype Origin = Origin(clause: seq<Lit>, marks: seq<bool>, rank: int)

  /** From the conflict x, with the levels lvls marked before, the walk derives the
    clause of o, and c is what minimisation leaves of it; target is the largest level
    of its literals after the first. */
  ghost predicate DerivedBy(a: Asn, cls: Cls, x: int, lvls: seq<bool>, o: Origin, c: seq<Lit>, target: int)
  {
    && Sizes(a) && x in cls && FirstUip(a, cls, x, o.clause) && Reached(a, o.clause, target)
    && |o.clause| >= 1 && Ranked(a, lvls, o.marks, o.clause[1..], o.rank)
    && c == Shortened(a, cls, o.marks, o.clause)
  }

  ghost predicate HeaderIs(d: seq<int>, p: int, h: int) {
    0 < p <= |d| && d[p - 1] == h
  }

  class Deriver {
    const cdb: Cdb
    const vars: Vars
    const guess: Guess
    const trail: Trail
    var CLits: seq<Lit>    // the derived clause
    var SLits: seq<Lit>    // literals seen at the conflict level
    var RLits: seq<Lit>    // literals visited when minimising
    var Lvls: seq<bool>    // per level: does the derived clause have a literal there?
    var Rdnt: seq<int>     // per variable: 1 redundant, -1 not, 0 unknown
    var Seen: seq<bool>    // per variable

    constructor (c: Cdb, g: Guess, t: Trail)
      ensures cdb == c && vars == c.vars && guess == g && trail == t
      ensures CLits == SLits == RLits == []
      ensures Lvls == Seen == seq(|c.vars.Levels|, _ => false) && Rdnt == seq(|c.vars.Levels|, _ => 0)
    {
      cdb, vars, guess, trail := c, c.vars, g, t;
      CLits, SLits, RLits := [], [], [];
      Lvls, Seen := seq(|c.vars.Levels|, _ => false), seq(|c.vars.Levels|, _ => false);
      Rdnt := seq(|c.vars.Levels|, _ => 0);
    }

    ghost function W(count: int, target: int): Walk
      reads this
      requires |CLits| >= 1
    {
      Walk(Seen, CLits[1..], SLits, count, target)
    }

    ghost predicate Linked()
      reads this, trail, cdb, cdb.cdat, guess
    {
      cdb.vars == vars == trail.vars && trail.cdb == cdb && trail.guess == guess && cdb.cdat.Valid() && guess.Valid()
    }

    method growToVar(u: int)
      requires u + 1 >= |Lvls| && u + 1 >= |Seen| && u + 1 >= |Rdnt|
      modifies this`Lvls, this`Seen, this`Rdnt
      ensures Lvls == Pad(old(Lvls), u + 1, false) && Seen == Pad(old(Seen), u + 1, false) && Rdnt == Pad(old(Rdnt), u + 1, 0)
    {
      Lvls := Pad(Lvls, u + 1, false);
      Seen := Pad(Seen, u + 1, false);
      Rdnt := Pad(Rdnt, u + 1, 0);
    }

    /** Marks one false literal of a clause that is resolved with. */
    method markLit(m: Lit, ghost a: Asn, ghost i: int, ghost b: int, ghost l0: seq<bool>, ghost s: set<Lit>, count0: int, target0: int, lbd0: int)
      returns (count: int, target: int, lbd: int)
      requires a == trail.A() && trail.vars == vars && AsnOk(a) && guess.Valid() && |guess.pos| >= |vars.Reasons|
      requires |CLits| >= 1 && WalkOk(a, W(count0, target0), i) && Ranked(a, l0, Lvls, CLits[1..], lbd0)
      requires LitOk(a, m) && a.vals[m] == -1 && (a.levels[Var(m)] == a.level ==> a.pos[Var(m)] <= i)
      requires |Lvls| >= trail.Level && m <= b && InBound(CLits[1..], b) && InBound(SLits, b)
      requires m in s && Backed(a, W(count0, target0), i, s)
      modifies this`CLits, this`SLits, this`Lvls, this`Seen
      modifies guess`pos, guess`vhp, guess`heat, guess`bumpInc
      ensures guess.Valid() && SameVars(old(guess.pos), guess.pos)
      ensures |CLits| >= 1 && CLits[0] == old(CLits[0]) && |Lvls| == |old(Lvls)| && Ranked(a, l0, Lvls, CLits[1..], lbd)
      ensures WalkOk(a, W(count, target), i) && Rep(a, W(count, target), i, m) && count >= count0
      ensures RepMore(a, old(W(count0, target0)), W(count, target), i) && InBound(CLits[1..], b) && InBound(SLits, b)
      ensures Backed(a, W(count, target), i, s)
    {
      hide WalkOk, Rep, RepMore, SameVars, Ranked, Backed;
      count, target, lbd := count0, target0, lbd0;
      ghost var w := W(count, target);
      SameVarsRefl(guess.pos);
      MarkShape(a, w, i, m);
      RepStart(a, w, i, [m], 0);
      var v := Var(m);
      if Seen[v] {
        MarkOld(a, w, i, m);
        return;
      }
      Seen := Seen[v := true];
      var vLevel := vars.Levels[v];
      if vLevel == 0 {
        MarkZero(a, w, i, m);
        BackedMark(a, w, W(count, target), i, s, m);
        return;
      }
      if vLevel != trail.Level {
        MarkLow(a, w, i, m);
        RankedNote(a, l0, Lvls, CLits[1..], lbd, m);
        assert (CLits + [m])[1..] == CLits[1..] + [m];
        CLits := CLits + [m];
        if target < vLevel {
          target := vLevel;
        }
        if Lvls[vLevel] {
          assert Lvls[vLevel := true] == Lvls;
        } else {
          Lvls := Lvls[vLevel := true];
          lbd := lbd + 1;
        }
        BackedMark(a, w, W(count, target), i, s, m);
        return;
      }
      MarkCur(a, w, i, m);
      SLits := SLits + [m];
      guess.Bump(m);
      count := count + 1;
      BackedMark(a, w, W(count, target), i, s, m);
    }

    /** Marks the literals of clause c, stored at q, from the j0-th on. */
    method mark(p0: int, ghost q: int, ghost c: seq<Lit>, ghost j0: int, ghost a: Asn, ghost i: int, ghost b: int, ghost l0: seq<bool>, ghost s: set<Lit>,
        count0: int, target0: int, lbd0: int)
      returns (count: int, target: int, lbd: int)
      requires a == trail.A() && trail.vars == vars && AsnOk(a) && guess.Valid() && |guess.pos| >= |vars.Reasons|
      requires Stored(cdb.cdat.D, q, c) && 0 <= j0 <= |c| && p0 == q + j0
      requires |CLits| >= 1 && WalkOk(a, W(count0, target0), i) && Ranked(a, l0, Lvls, CLits[1..], lbd0)
      requires ToMark(a, i, c, j0)
      requires |Lvls| >= trail.Level && InBound(c, b) && InBound(CLits[1..], b) && InBound(SLits, b)
      requires Backed(a, W(count0, target0), i, s) && forall k :: j0 <= k < |c| ==> c[k] in s
      modifies this`CLits, this`SLits, this`Lvls, this`Seen
      modifies guess`pos, guess`vhp, guess`heat, guess`bumpInc
      ensures guess.Valid() && SameVars(old(guess.pos), guess.pos)
      ensures |CLits| >= 1 && CLits[0] == old(CLits[0]) && |Lvls| == |old(Lvls)| && Ranked(a, l0, Lvls, CLits[1..], lbd)
      ensures WalkOk(a, W(count, target), i) && RepAll(a, W(count, target), i, c, j0, |c|) && count >= count0
      ensures RepMore(a, old(W(count0, target0)), W(count, target), i) && InBound(CLits[1..], b) && InBound(SLits, b)
      ensures Backed(a, W(count, target), i, s)
    {
      hide AsnOk, Sizes, WalkOk, Rep, RepMore, RepAll, SameVars, Ranked, Backed;
      AsnSizes(a);
      var p := p0;
      count, target, lbd := count0, target0, lbd0;
      ghost var w0 := W(count, target);
      SameVarsRefl(guess.pos);
      RepStart(a, w0, i, c, j0);
      while cdb.cdat.D[p] != NULL
        invariant q + j0 <= p <= q + |c| && cdb.cdat.D[p] == if p == q + |c| then NULL else c[p - q]
        invariant guess.Valid() && SameVars(old(guess.pos), guess.pos)
        invariant |CLits| >= 1 && CLits[0] == old(CLits[0]) && |Lvls| == |old(Lvls)| && Ranked(a, l0, Lvls, CLits[1..], lbd)
        invariant WalkOk(a, W(count, target), i) && RepAll(a, W(count, target), i, c, j0, p - q)
        invariant RepMore(a, w0, W(count, target), i) && count >= count0 && InBound(CLits[1..], b) && InBound(SLits, b)
        invariant Backed(a, W(count, target), i, s)
        decreases q + |c| - p
      {
        var m := cdb.cdat.D[p];
        ghost var w, g := W(count, target), guess.pos;
        assert m in c;
        count, target, lbd := markLit(m, a, i, b, l0, s, count, target, lbd);
        SameVarsTrans(old(guess.pos), g, guess.pos);
        RepStep(a, w0, w, W(count, target), i, c, j0, p - q);
        p := p + 1;
      }
    }

    /** Walks back along the trail from the conflict x to the first literal that
      alone implies it at the current level; CLits becomes the derived clause. */
    method walk(x: int, ghost a: Asn, ghost cls: Cls, ghost b: int) returns (target: int, lbd: int)
      requires Linked() && cdb.Valid() && a == trail.A() && cls == cdb.Live() && Core(a, cls) && a.level > 0
      requires x in cls && AllFalse(a, cls[x])
      requires SomeNow(a, cls[x]) && AllBound(cls, b)
      requires |Seen| == |vars.Reasons| <= |guess.pos| && |Lvls| >= a.level && SeenOk(a, Seen, [], [])
      modifies this`CLits, this`SLits, this`Lvls, this`Seen
      modifies guess`pos, guess`vhp, guess`heat, guess`bumpInc, cdb.cdat`D, cdb.cdat`bumpInc
      ensures cdb.Valid() && cdb.Live() == cls && guess.Valid() && SameVars(old(guess.pos), guess.pos) && |Lvls| == |old(Lvls)|
      ensures LearntOk(a, CLits, target) && Reached(a, CLits, target)
      ensures FirstUip(a, cls, x, CLits) && Entailed(cls, LitSet(CLits))
      ensures |Seen| == |old(Seen)| && InBound(CLits, b) && Ranked(a, old(Lvls), Lvls, CLits[1..], lbd)
      ensures SlOk(a, Seen, SLits) && LowSeen(Seen, CLits[1..]) && SeenOk(a, Seen, CLits[1..], SLits)
    {
      hide Core, AsnOk, Sizes, AllFalse, WalkOk, Rep, RepMore, RepAll, SameVars, Entailed, ToMark, LearntOk, SeenOk, SlOk, LowSeen, Accounted, LitSet, Stored, Layout, Indexed, InRange, MaxHeap, InBound, ListsOk, CoolAll, AllStored, SomeNow, Heated, SetOf, Ranked, OnWay, Backed, FirstUip, Reached, Others;
      CoreParts(a, cls);
      CLits, SLits := [NULL], [];
      var count;
      count, target, lbd := 0, 0, 0;
      ghost var q, c, j0 := x, cls[x], 0;
      ghost var r := LitSet(c);
      OnWayStart(a, cls, x, Seen);
      assert CLits[1..] == [];
      RankedNone(a, Lvls);
      BoundNone(b);
      cdb.Bump(x);
      var p := x;
      var i := |trail.D| - 1;
      SameVarsRefl(guess.pos);
      while true
        invariant -1 <= i < |trail.D| && (p != 0 ==> p == q + j0)
        invariant cdb.Valid() && guess.Valid() && SameVars(old(guess.pos), guess.pos)
        invariant |CLits| >= 1 && |Lvls| == |old(Lvls)| && Ranked(a, old(Lvls), Lvls, CLits[1..], lbd)
        invariant p != 0 ==> q in cls && c == cls[q] && 0 <= j0 <= |c| && ToMark(a, i, c, j0)
        invariant OnWay(a, cls, x, W(count, target), i, r, if p != 0 then c[j0..] else [])
        invariant count > 0 || (p != 0 && SomeNow(a, c[j0..]))
        invariant InBound(CLits[1..], b) && InBound(SLits, b) && (p != 0 ==> InBound(c, b))
        decreases i
      {
        if p != 0 {
          ghost var w, g := W(count, target), guess.pos;
          StoredAt(cdb.cdat.D, cdb.cdat.Cls, q);
          OnWayParts(a, cls, x, w, i, r, c, j0);
          count, target, lbd := mark(p, q, c, j0, a, i, b, old(Lvls), r, count, target, lbd);
          SameVarsTrans(old(guess.pos), g, guess.pos);
          OnWayMarked(a, cls, x, w, W(count, target), i, r, c, j0);
          p := 0;
        }
        OnWayParts(a, cls, x, W(count, target), i, r, [], 0);
        WalkPlace(a, W(count, target), i);
        var m := trail.D[i];
        var v := Var(m);
        if !Seen[v] {
          OnWaySkip(a, cls, x, W(count, target), i, r);
          i := i - 1;
          continue;
        }
        OnWayTake(a, cls, x, W(count, target), i, r);
        count := count - 1;
        if count == 0 {
          ghost var g := guess.pos;
          asserting(m, a, i - 1, b, target);
          SameVarsTrans(old(guess.pos), g, guess.pos);
          break;
        }
        r := (r - {Not(m)}) + Others(cls, vars.Reasons[v]);
        q, j0 := vars.Reasons[v], 1;
        c := cls[q];
        cdb.Bump(vars.Reasons[v]);
        p := vars.Reasons[v] + 1;
        i := i - 1;
      }
    }

    /** The walk ends at m: its negation is the first literal of the derived clause. */
    method asserting(m: Lit, ghost a: Asn, ghost i: int, ghost b: int, ghost target: int)
      requires Sizes(a) && |CLits| >= 1 && WalkOk(a, W(0, target), i) && Not(m) in SLits
      requires InBound(CLits[1..], b) && InBound(SLits, b) && guess.Valid() && 0 <= Var(m) < |guess.pos|
      modifies this`CLits
      modifies guess`pos, guess`vhp, guess`heat, guess`bumpInc
      ensures CLits == [Not(m)] + old(CLits)[1..] && InBound(CLits, b) && |Seen| == |a.reasons|
      ensures SlOk(a, Seen, SLits) && LowSeen(Seen, CLits[1..]) && SeenOk(a, Seen, CLits[1..], SLits)
      ensures guess.Valid() && SameVars(old(guess.pos), guess.pos)
    {
      hide WalkOk, InBound, SlOk, LowSeen, SeenOk, SameVars, Heated, Indexed, InRange, MaxHeap;
      WalkSeen(a, W(0, target), i);
      CLits := CLits[0 := Not(m)];
      assert CLits == [Not(m)] + CLits[1..];
      BoundHead(Not(m), CLits, SLits, b);
      guess.Bump(m);
    }

    /** Does m, which is not the literal on hold, follow from the derived clause o, or is
      the literal on hold redundant?  Rdnt caches the answers; Lvls only cuts the search. */
    method isRdntRec(m: Lit, ghost a: Asn, ghost cls: Cls, ghost o: seq<Lit>, ghost top: int) returns (res: bool)
      requires a == trail.A() && trail.vars == vars && AsnOk(a) && Sizes(a) && ReasonsOk(a, cls) && |Lvls| > a.level
      requires forall p :: p in cls ==> Stored(cdb.cdat.D, p, cls[p])
      requires CacheIs(a, cls, Lvls, o, Rdnt, top) && LitOk(a, m) && a.vals[m] == -1 && a.pos[Var(m)] <= top
      requires a.pos[Var(m)] == top ==> Rdnt[Var(m)] == 0
      modifies this`Rdnt, this`RLits
      ensures CacheIs(a, cls, Lvls, o, Rdnt, top)
      ensures res <==> if a.pos[Var(m)] == top then Redundant(a, cls, Lvls, o, m) else Follows(a, cls, Lvls, o, m)
      ensures old(RLits) <= RLits && Visited(old(Rdnt), Rdnt, RLits)
      ensures old(Rdnt)[Var(m)] == 0 ==> m in RLits
      ensures forall n :: n in RLits && n !in old(RLits) ==> LitOk(a, n)
      decreases a.pos[Var(m)], 1
    {
      hide AsnOk, ReasonsOk, CacheIs, Visited, Redundant, Stored;
      ReasonOf(a, cls, m);
      RedundantIs(a, cls, Lvls, o, m);
      CacheSizes(a, cls, Lvls, o, Rdnt, top);
      if a.pos[Var(m)] != top { CacheAt(a, cls, Lvls, o, Rdnt, top, m); }
      var v := Var(m);
      VisitedRefl(Rdnt, RLits);
      if Rdnt[v] != 0 {
        res := Rdnt[v] == 1;
        return;
      }
      RLits := RLits + [m];
      VisitedRefl(Rdnt, RLits);
      var lvl := vars.Levels[v];
      var p := vars.Reasons[v];
      res := Lvls[lvl] && p != 0;
      if res {
        res := isRdntRest(m, p, a, cls, o, top);
      }
      CacheSizes(a, cls, Lvls, o, Rdnt, top);
      ghost var rd := Rdnt;
      assert RLits[|old(RLits)|] == m;
      CacheSet(a, cls, Lvls, o, Rdnt, top, m, if res then 1 else -1);
      Rdnt := Rdnt[v := if res then 1 else -1];
      VisitedSet(old(Rdnt), rd, RLits, m, if res then 1 else -1);
    }

    /** Do the literals of the reason p of m, other than its first, all follow? */
    method isRdntRest(m: Lit, p: int, ghost a: Asn, ghost cls: Cls, ghost o: seq<Lit>, ghost top: int) returns (res: bool)
      requires a == trail.A() && trail.vars == vars && AsnOk(a) && Sizes(a) && ReasonsOk(a, cls) && |Lvls| > a.level
      requires forall p :: p in cls ==> Stored(cdb.cdat.D, p, cls[p])
      requires CacheIs(a, cls, Lvls, o, Rdnt, top) && LitOk(a, m) && a.vals[m] == -1 && a.pos[Var(m)] <= top
      requires p in cls && p == a.reasons[Var(m)] && p != 0 && BeforeAll(a, cls[p], m)
      modifies this`Rdnt, this`RLits
      ensures CacheIs(a, cls, Lvls, o, Rdnt, top)
      ensures res <==> forall i :: 1 <= i < |cls[p]| ==> Follows(a, cls, Lvls, o, cls[p][i])
      ensures old(RLits) <= RLits && Visited(old(Rdnt), Rdnt, RLits)
      ensures forall n :: n in RLits && n !in old(RLits) ==> LitOk(a, n)
      decreases a.pos[Var(m)], 0
    {
      hide AsnOk, ReasonsOk, CacheIs, Visited, Follows;
      ghost var c := cls[p];
      assert Stored(cdb.cdat.D, p, c);
      ReasonOf(a, cls, m);
      VisitedRefl(Rdnt, RLits);
      var r := p + 1;
      while cdb.cdat.D[r] != NULL
        invariant 1 <= r - p <= |c| && cdb.cdat.D[r] == if r == p + |c| then NULL else c[r - p]
        invariant CacheIs(a, cls, Lvls, o, Rdnt, top)
        invariant forall i :: 1 <= i < r - p ==> Follows(a, cls, Lvls, o, c[i])
        invariant old(RLits) <= RLits && Visited(old(Rdnt), Rdnt, RLits)
        invariant forall n :: n in RLits && n !in old(RLits) ==> LitOk(a, n)
        decreases p + |c| - r
      {
        ghost var rd, rl := Rdnt, RLits;
        var n := cdb.cdat.D[r];
        var b := isRdntRec(n, a, cls, o, top);
        VisitedStep(old(Rdnt), rd, Rdnt, rl, RLits);
        if !b {
          return false;
        }
        r := r + 1;
      }
      res := true;
    }

    /** Is literal m of the derived clause redundant?  Its own entry in the cache
      is ignored while the answer is found. */
    method isRdnt(m: Lit, ghost a: Asn, ghost cls: Cls, ghost o: seq<Lit>) returns (res: bool)
      requires a == trail.A() && trail.vars == vars && AsnOk(a) && Sizes(a) && ReasonsOk(a, cls) && |Lvls| > a.level
      requires forall p :: p in cls ==> Stored(cdb.cdat.D, p, cls[p])
      requires CacheIs(a, cls, Lvls, o, Rdnt, -1) && LitOk(a, m) && a.vals[m] == -1 && m in o
      modifies this`Rdnt, this`RLits
      ensures CacheIs(a, cls, Lvls, o, Rdnt, -1)
      ensures res <==> Redundant(a, cls, Lvls, o, m)
      ensures old(RLits) <= RLits && Visited(old(Rdnt), Rdnt, RLits) && m in RLits
      ensures forall n :: n in RLits && n !in old(RLits) ==> LitOk(a, n)
    {
      hide AsnOk, ReasonsOk, CacheIs, Visited, Redundant, Follows, Stored;
      CacheHold(a, cls, Lvls, o, Rdnt, m);
      ghost var rd := Rdnt;
      Rdnt := Rdnt[Var(m) := 0];
      res := isRdntRec(m, a, cls, o, a.pos[Var(m)]);
      CacheFree(a, cls, Lvls, o, Rdnt, m);
      VisitedReset(rd, Rdnt, RLits, m);
      Rdnt := Rdnt[Var(m) := 1];
    }

    /** Enters the literals of the derived clause in the cache. */
    method cacheClause()
      requires |CLits| >= 1 && forall x :: 0 <= x < |Rdnt| ==> Rdnt[x] == 0
      requires forall k :: 1 <= k < |CLits| ==> 0 <= Var(CLits[k]) < |Rdnt|
      modifies this`Rdnt
      ensures |Rdnt| == |old(Rdnt)|
      ensures forall x :: 0 <= x < |Rdnt| ==> Rdnt[x] == if x in VarsOf(CLits[1..]) then 1 else 0
    {
      hide Var, VarsOf;
      var i := 1;
      VarsOfNil();
      assert CLits[1..i] == [];
      while i < |CLits|
        invariant 1 <= i <= |CLits| && |Rdnt| == |old(Rdnt)|
        invariant forall x :: 0 <= x < |Rdnt| ==> Rdnt[x] == if x in VarsOf(CLits[1..i]) then 1 else 0
      {
        VarsOfAdd(CLits[1..i], CLits[i]);
        assert CLits[1..i + 1] == CLits[1..i] + [CLits[i]];
        Rdnt := Rdnt[Var(CLits[i]) := 1];
        i := i + 1;
      }
      assert CLits[1..i] == CLits[1..];
    }

    /** Clears the cache entries of all visited literals. */
    method clearCache()
      requires forall k {:trigger RLits[k]} :: 0 <= k < |RLits| ==> 0 <= Var(RLits[k]) < |Rdnt|
      requires forall x :: 0 <= x < |Rdnt| && Rdnt[x] != 0 ==> x in VarsOf(RLits)
      modifies this`Rdnt, this`RLits
      ensures |Rdnt| == |old(Rdnt)| && RLits == [] && forall x :: 0 <= x < |Rdnt| ==> Rdnt[x] == 0
    {
      hide Var, VarsOf;
      var i := 0;
      assert RLits[0..] == RLits;
      while i < |RLits|
        invariant 0 <= i <= |RLits| && |Rdnt| == |old(Rdnt)| && RLits == old(RLits)
        invariant forall x :: 0 <= x < |Rdnt| && Rdnt[x] != 0 ==> x in VarsOf(RLits[i..])
      {
        assert RLits[i..] == [RLits[i]] + RLits[i + 1..];
        VarsOfCons(RLits[i], RLits[i + 1..]);
        Rdnt := Rdnt[Var(RLits[i]) := 0];
        i := i + 1;
      }
      assert RLits[i..] == [];
      VarsOfNil();
      RLits := [];
    }

    /** Unmarks the levels of the derived clause. */
    method clearLvls()
      requires forall k :: 0 <= k < |CLits| ==> 0 <= Var(CLits[k]) < |vars.Levels| && 0 <= vars.Levels[Var(CLits[k])] < |Lvls|
      modifies this`Lvls
      ensures Cleared(vars.Levels, CLits, old(Lvls), Lvls)
    {
      hide Var, AtLevel;
      AtNone(vars.Levels, CLits[..0]);
      for i := 0 to |CLits|
        invariant Cleared(vars.Levels, CLits[..i], old(Lvls), Lvls)
      {
        assert CLits[..i + 1] == CLits[..i] + [CLits[i]];
        AtNext(vars.Levels, CLits[..i], CLits[i]);
        var lvl := vars.Levels[Var(CLits[i])];
        if Lvls[lvl] {
          Lvls := Lvls[lvl := false];
        }
      }
      assert CLits[..|CLits|] == CLits;
    }

    /** Passes over the derived clause and drops exactly the redundant literals. */
    method sift(ghost a: Asn, ghost cls: Cls, ghost target: int)
      requires a == trail.A() && trail.vars == vars && AsnOk(a) && Sizes(a) && ReasonsOk(a, cls) && |Lvls| > a.level
      requires forall p :: p in cls ==> Stored(cdb.cdat.D, p, cls[p])
      requires guess.Valid() && |guess.pos| >= |vars.Reasons|
      requires |CLits| >= 1 && LearntOk(a, CLits, target) && CacheIs(a, cls, Lvls, CLits[1..], Rdnt, -1)
      requires RLits == [] && forall x :: 0 <= x < |Rdnt| && Rdnt[x] != 0 ==> x in VarsOf(CLits[1..])
      modifies this`Rdnt, this`RLits, this`CLits
      modifies guess`pos, guess`vhp, guess`heat, guess`bumpInc
      ensures guess.Valid() && SameVars(old(guess.pos), guess.pos) && |Rdnt| == |vars.Reasons|
      ensures CLits == Shortened(a, cls, Lvls, old(CLits))
      ensures (forall n :: n in RLits ==> LitOk(a, n)) && forall x :: 0 <= x < |Rdnt| && Rdnt[x] != 0 ==> x in VarsOf(RLits)
    {
      hide AsnOk, Sizes, ReasonsOk, CacheIs, Visited, Redundant, Needed, Stored, LearntOk, SameVars, VarsOf, Var, Indexed, InRange, MaxHeap;
      AsnSizes(a);
      LearntVars(a, CLits, target);
      ghost var c0 := CLits;
      ghost var o := c0[1..];
      SameVarsRefl(guess.pos);
      NeededNone(a, cls, Lvls, o);
      var i, j := 1, 1;
      assert CLits[..j] == [c0[0]] && c0[1..i] == [];
      while i < |CLits|
        invariant 1 <= j <= i <= |CLits| == |c0| && CLits[i..] == c0[i..]
        invariant guess.Valid() && SameVars(old(guess.pos), guess.pos)
        invariant CacheIs(a, cls, Lvls, o, Rdnt, -1)
        invariant CLits[..j] == [c0[0]] + Needed(a, cls, Lvls, o, c0[1..i])
        invariant forall n :: n in RLits ==> LitOk(a, n)
        invariant Left(Rdnt, RLits, c0[i..])
      {
        var m := CLits[i];
        assert m == c0[i..][0] == c0[i] && o[i - 1] == m;
        ghost var rd, rl := Rdnt, RLits;
        LearntLit(a, c0, target, i);
        var r := isRdnt(m, a, cls, o);
        LeftStep(rd, Rdnt, rl, RLits, c0, i);
        assert c0[1..i + 1] == c0[1..i] + [m];
        NeededNext(a, cls, Lvls, o, c0[1..i], m);
        if !r {
          ghost var g := guess.pos;
          guess.Bump(m);
          SameVarsTrans(old(guess.pos), g, guess.pos);
          CLits := CLits[j := m];
          j := j + 1;
          assert CLits[..j] == CLits[..j - 1] + [m];
        }
        i := i + 1;
      }
      LeftEnd(Rdnt, RLits, c0[i..]);
      CacheSizes(a, cls, Lvls, o, Rdnt, -1);
      assert c0[1..i] == o;
      CLits := CLits[..j];
    }

    /** Drops the redundant literals of the derived clause, and them only. */
    method minimize(ghost a: Asn, ghost cls: Cls, ghost target: int)
      requires a == trail.A() && trail.vars == vars && AsnOk(a) && Sizes(a) && ReasonsOk(a, cls) && |Lvls| > a.level
      requires forall p :: p in cls ==> Stored(cdb.cdat.D, p, cls[p])
      requires guess.Valid() && |guess.pos| >= |vars.Reasons|
      requires |CLits| >= 1 && LearntOk(a, CLits, target) && Entailed(cls, LitSet(CLits))
      requires |Rdnt| == |vars.Reasons| && RLits == [] && forall x :: 0 <= x < |Rdnt| ==> Rdnt[x] == 0
      modifies this`Rdnt, this`RLits, this`CLits, this`Lvls
      modifies guess`pos, guess`vhp, guess`heat, guess`bumpInc
      ensures guess.Valid() && SameVars(old(guess.pos), guess.pos)
      ensures CLits == Shortened(a, cls, old(Lvls), old(CLits)) && Cleared(a.levels, CLits, old(Lvls), Lvls)
      ensures LearntOk(a, CLits, target) && Entailed(cls, LitSet(CLits)) && forall m :: m in CLits ==> m in old(CLits)
      ensures |Rdnt| == |vars.Reasons| && RLits == [] && forall x :: 0 <= x < |Rdnt| ==> Rdnt[x] == 0
    {
      hide AtLevel, AsnOk, ReasonsOk, CacheIs, Shortened, Entailed, LitSet, Stored, LearntOk, SameVars, VarsOf, Var, Indexed, InRange, MaxHeap;
      LearntVars(a, CLits, target);
      ghost var c0 := CLits;
      cacheClause();
      CacheStart(a, cls, Lvls, Rdnt, c0, target);
      sift(a, cls, target);
      ShortenedOk(a, cls, Lvls, c0, target);
      forall n | n in RLits ensures 0 <= Var(n) < |Rdnt| { VarFits(a, n); }
      clearCache();
      LearntVars(a, CLits, target);
      clearLvls();
    }

    /** Unmarks the variables of the literals. */
    method unsee(ms: seq<Lit>)
      requires forall k :: 0 <= k < |ms| ==> 0 <= Var(ms[k]) < |Seen|
      modifies this`Seen
      ensures |Seen| == |old(Seen)|
      ensures forall x :: 0 <= x < |Seen| ==> (Seen[x] <==> old(Seen)[x] && x !in VarsOf(ms))
    {
      hide Var, VarsOf;
      VarsOfNil();
      assert ms[..0] == [];
      for i := 0 to |ms|
        invariant |Seen| == |old(Seen)|
        invariant forall x :: 0 <= x < |Seen| ==> (Seen[x] <==> old(Seen)[x] && x !in VarsOf(ms[..i]))
      {
        VarsOfAdd(ms[..i], ms[i]);
        assert ms[..i + 1] == ms[..i] + [ms[i]];
        if Seen[Var(ms[i])] {
          Seen := Seen[Var(ms[i]) := false];
        }
      }
      assert ms[..|ms|] == ms;
    }

    ghost predicate Idle()
      reads this, vars
    {
      && |Seen| == |vars.Reasons| == |Rdnt| && |Lvls| == |vars.Reasons| && RLits == []
      && forall x :: 0 <= x < |Rdnt| ==> Rdnt[x] == 0
    }

    /** The walk, after which the marks are taken back. */
    method analyze(x: int, ghost a: Asn, ghost cls: Cls, ghost b: int) returns (target: int, lbd: int)
      requires Linked() && cdb.Valid() && a == trail.A() && cls == cdb.Live() && Core(a, cls) && a.level > 0
      requires x in cls && AllFalse(a, cls[x]) && SomeNow(a, cls[x])
      requires |Seen| == |vars.Reasons| <= |guess.pos| && |Lvls| >= a.level && SeenOk(a, Seen, [], [])
      requires AllBound(cls, b)
      modifies this`CLits, this`SLits, this`Lvls, this`Seen
      modifies guess`pos, guess`vhp, guess`heat, guess`bumpInc, cdb.cdat`D, cdb.cdat`bumpInc
      ensures cdb.Valid() && cdb.Live() == cls && guess.Valid() && SameVars(old(guess.pos), guess.pos) && |Lvls| == |old(Lvls)| && InBound(CLits, b)
      ensures |Seen| == |old(Seen)| && SeenOk(a, Seen, [], []) && |CLits| >= 1 && Ranked(a, old(Lvls), Lvls, CLits[1..], lbd)
      ensures LearntOk(a, CLits, target) && Reached(a, CLits, target)
      ensures FirstUip(a, cls, x, CLits) && Entailed(cls, LitSet(CLits))
    {
      hide Core, AsnOk, Sizes, Entailed, LearntOk, Reached, FirstUip, SeenOk, SlOk, LowSeen, SameVars, Indexed, InRange, MaxHeap, Layout, LitSet, AllFalse, SomeNow, Stored, AllBound, InBound, ListsOk, Ranked;
      CoreParts(a, cls);
      target, lbd := walk(x, a, cls, b);
      LearntVars(a, CLits, target);
      SlVars(a, Seen, SLits);
      ghost var seen := Seen;
      unsee(CLits);
      unsee(SLits);
      SeenCleared(a, seen, Seen, CLits, SLits);
    }

    /** Derives a clause from the conflict x and stores it.  The clause follows from
      the others, is false, and has one literal at the current level: unit. */
    method Derive(x: int, ghost b: int) returns (P: int, unit: Lit, target: int, ghost o: Origin)
      requires Linked() && cdb.Valid() && Idle() && Core(trail.A(), cdb.Live()) && trail.Level > 0
      requires x in cdb.Live() && AllFalse(trail.A(), cdb.Live()[x]) && SomeNow(trail.A(), cdb.Live()[x])
      requires |vars.Reasons| <= |guess.pos| && SeenOk(trail.A(), Seen, [], []) && |vars.Watches| == |vars.Vals|
      requires AllBound(cdb.Live(), b)
      modifies this, cdb`Learnts, cdb`Bot, cdb.cdat, vars`Watches
      modifies guess`pos, guess`vhp, guess`heat, guess`bumpInc
      ensures cdb.Valid() && Idle() && SeenOk(trail.A(), Seen, [], [])
      ensures guess.Valid() && SameVars(old(guess.pos), guess.pos)
      ensures LearntOk(trail.A(), CLits, target) && unit == CLits[0] && Entailed(old(cdb.Live()), LitSet(CLits))
      ensures DerivedBy(trail.A(), old(cdb.Live()), x, old(Lvls), o, CLits, target) && Cleared(vars.Levels, CLits, o.marks, Lvls)
      ensures HeaderIs(cdb.cdat.D, P, MakeChd(true, o.rank, |CLits|))
      ensures P > 0 && P !in old(cdb.Live()) && cdb.Live() == old(cdb.Live())[P := CLits]
      ensures ClauseOk(|vars.Vals|, CLits) && InBound(CLits, b)
      ensures vars.Watches == WithWatches(old(vars.Watches), P, CLits) && cdb.Bot == old(cdb.Bot)
    {
      hide AtLevel, Core, AsnOk, Sizes, ReasonsOk, Entailed, LearntOk, Reached, FirstUip, Ranked, Shortened, SeenOk, SameVars, Indexed, InRange, MaxHeap, Layout, LitSet, AllFalse, SomeNow, Stored, WithWatches, ClauseOk, ListsOk, AllBound, InBound;
      ghost var a, cls := trail.A(), cdb.Live();
      CoreParts(a, cls);
      LevelFits(a);
      var lbd;
      target, lbd := analyze(x, a, cls, b);
      assert forall p :: p in cls ==> Stored(cdb.cdat.D, p, cls[p]);
      ghost var g := guess.pos;
      o := Origin(CLits, Lvls, lbd);
      minimize(a, cls, target);
      BoundLess(o.clause, CLits, b);
      SameVarsTrans(old(guess.pos), g, guess.pos);
      LearntClause(a, CLits, target);
      unit := CLits[0];
      P := cdb.Learn(CLits, lbd);
    }
  }
}
