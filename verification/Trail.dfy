/** The trail and unit propagation (internal/xo/trail.go). */
module Trails {
  import opened Lits
  import opened Counting
  import opened Assignment
  import opened Clauses
  import opened Watching
  import opened Propagation
  import opened FlatStore
  import opened Database
  import opened Guesses

  class Trail {
    const cdb: Cdb
    const vars: Vars
    const guess: Guess
    var D: seq<Lit>        // the live part of the trail
    var Head: int
    var Level: int
    ghost var Pos: seq<int>
    ghost var Lv: seq<int>
    ghost var Why: seq<int>
    ghost var Starts: seq<int>

    constructor (c: Cdb, g: Guess)
      ensures cdb == c && vars == c.vars && guess == g
      ensures A() == Asn(c.vars.Vals, c.vars.Levels, c.vars.Reasons, c.vars.Reasons, [], [], [], [], 0) && Head == 0
    {
      cdb, vars, guess := c, c.vars, g;
      D, Head, Level, Pos, Lv, Why, Starts := [], 0, 0, c.vars.Reasons, [], [], [];
    }

    /** The assignment that the fields hold. */
    ghost function A(): Asn
      reads this, vars
    {
      Asn(vars.Vals, vars.Levels, vars.Reasons, Pos, D, Lv, Why, Starts, Level)
    }

    ghost method growToVar(u: int)
      requires u + 1 >= |Pos|
      modifies this`Pos
      ensures Pos == Pad(old(Pos), u + 1, 0)
    {
      Pos := Pad(Pos, u + 1, 0);
    }

    /** Assigns m, with reason c or, when c is null, as a decision. */
    method Assign(m: Lit, c: int)
      requires Sizes(A()) && LitOk(A(), m)
      modifies this`D, this`Level, this`Pos, this`Lv, this`Why, this`Starts
      modifies vars`Vals, vars`Levels, vars`Reasons
      ensures A() == Assigned(old(A()), m, c)
    {
      Pos := Pos[Var(m) := |D|];
      Starts := if c == 0 then Starts + [|D|] else Starts;
      Why := Why + [c];
      D := D + [m];
      vars.Reasons := vars.Reasons[Var(m) := c];
      if c == 0 {
        Level := Level + 1;
      }
      Lv := Lv + [Level];
      vars.Levels := vars.Levels[Var(m) := Level];
      vars.Vals := vars.Vals[m := 1];
      vars.Vals := vars.Vals[Not(m) := -1];
    }

    /** Takes the assignment of m = a.trail[i - 1] back. */
    method unassign(m: Lit, ghost a: Asn, ghost i: int)
      requires Sizes(a) && ValsOk(a) && TrailOk(a) && 0 < i <= |a.trail| && m == a.trail[i - 1]
      requires Undone(a, vars.Vals, vars.Levels, vars.Reasons, i)
      requires guess.Valid() && |guess.pos| >= |a.reasons|
      modifies vars`Vals, vars`Levels, vars`Reasons, guess`pos, guess`vhp, guess`cache
      ensures Undone(a, vars.Vals, vars.Levels, vars.Reasons, i - 1)
      ensures guess.Valid() && |guess.pos| == |old(guess.pos)|
      ensures forall u :: guess.Has(u) <==> old(guess.Has(u)) || u == Var(m)
      ensures Var(m) < |old(guess.cache)| && guess.cache == old(guess.cache)[Var(m) := Sign(m)]
      ensures |vars.Reasons| == |a.reasons| && 1 <= Var(m) < |a.reasons|
    {
      UndoStep(a, vars.Vals, vars.Levels, vars.Reasons, i, m);
      hide ValsOk, TrailOk, Undone;
      UndoneSizes(a, vars.Vals, vars.Levels, vars.Reasons, i);
      var v := Var(m);
      vars.Vals := vars.Vals[m := 0];
      vars.Vals := vars.Vals[Not(m) := 0];
      vars.Reasons := vars.Reasons[v := 0];
      vars.Levels := vars.Levels[v := -1];
      guess.Push(m);
    }

    /** Goes back to level trgLevel; unassigned variables return to the heap. */
    method Back(trgLevel: int)
      requires AsnOk(A()) && trgLevel >= 0
      requires guess.Valid() && |guess.pos| >= |vars.Reasons|
      modifies this, vars`Vals, vars`Levels, vars`Reasons
      modifies guess`pos, guess`vhp, guess`cache
      ensures old(Level) <= trgLevel ==> A() == old(A()) && Head == old(Head) && unchanged(guess)
      ensures old(Level) > trgLevel ==> 0 <= Head == |D| <= |old(D)| && IsCut(old(A()), A(), Head, trgLevel)
      ensures guess.Valid() && |guess.pos| == |old(guess.pos)|
      ensures forall u :: old(guess.Has(u)) ==> guess.Has(u)
      ensures forall u :: guess.Has(u) ==> old(guess.Has(u)) || 1 <= u < |vars.Reasons|
      ensures forall k :: |D| <= k < |old(D)| ==> guess.Has(Var(old(D)[k]))
      ensures old(Level) > trgLevel ==> guess.cache == Saved(old(guess.cache), old(D), |D|)
    {
      hide ValsOk, TrailOk, NotesOk, LevOk, Undone, MaxHeap, Indexed, InRange;
      if Level <= trgLevel {
        return;
      }
      ghost var a := A();
      UndoStart(a);
      var i := |D|;
      while i > 0
        invariant 0 <= i <= |D| && unchanged(this) && |vars.Reasons| == |a.reasons|
        invariant Undone(a, vars.Vals, vars.Levels, vars.Reasons, i)
        invariant forall j :: i <= j < |D| ==> Lv[j] > trgLevel
        invariant guess.Valid() && |guess.pos| == |old(guess.pos)|
        invariant forall u :: old(guess.Has(u)) ==> guess.Has(u)
        invariant forall u :: guess.Has(u) ==> old(guess.Has(u)) || 1 <= u < |a.reasons|
        invariant forall k :: i <= k < |D| ==> guess.Has(Var(D[k]))
        invariant guess.cache == Saved(old(guess.cache), D, i)
      {
        UndoLevel(Lv, Why, Starts, Level, trgLevel, i);
        var m := D[i - 1];
        UndoneLevel(a, vars.Vals, vars.Levels, vars.Reasons, i);
        if vars.Levels[Var(m)] == trgLevel {
          break;
        }
        unassign(m, a, i);
        i := i - 1;
      }
      UndoLevel(Lv, Why, Starts, Level, trgLevel, i);
      LevSizes(Lv, Why, Starts, Level, trgLevel, i);
      Head := i;
      D := D[..i];
      Lv, Why, Starts := Lv[..i], Why[..i], Starts[..trgLevel];
      Level := trgLevel;
    }

    ghost predicate POk(ws: Lists, m: Lit, todo: set<int>)
      reads this, vars, cdb, cdb.cdat
    {
      && cdb.vars == vars && cdb.cdat.Valid()
      && PropOk(A(), cdb.Live(), cdb.Full, ws, Head, m, todo)
    }

    /** Exchanges the watched literals of q if m is the first of them. */
    method mFirst(q: int, m: Lit, o: Lit, ghost ws: Lists, ghost todo: set<int>)
      requires POk(ws, m, todo) && FalseNow(A(), m) && q in cdb.Live()
      requires var c := cdb.Live()[q]; |c| >= 2 && ((c[0] == m && c[1] == o) || (c[0] == o && c[1] == m))
      modifies cdb.cdat
      ensures POk(ws, m, todo) && q in cdb.Live() && 0 <= q < |cdb.cdat.D| && cdb.cdat.D[q] == o
      ensures Reordered(old(cdb.cdat.Cls), cdb.cdat.Cls)
      ensures var c := cdb.Live()[q]; |c| == |old(cdb.Live()[q])| && c[0] == o && c[1] == m && c[2..] == old(cdb.Live()[q])[2..]
    {
      ghost var a, cls, dead, live := A(), cdb.cdat.Cls, SetOf(cdb.rmq), cdb.Live();
      hide PropOk, Layout, Swap, FalseNow;
      assert Stored(cdb.cdat.D, q, live[q]);
      if cdb.cdat.D[q] == m {
        StepSwap(a, live, cdb.Full, ws, Head, m, todo, q);
        cdb.cdat.Swap(q, 0, 1);
        LiveUpdate(cls, dead, q, Swap(live[q], 0, 1));
        SwapEnds(live[q]);
        SwapReorders(cls, q, 0, 1);
      }
    }

    /** Looks in clause q, past the watched literals, for one that is not false. */
    method scan(q: int, ghost c: seq<Lit>) returns (j: int)
      requires Stored(cdb.cdat.D, q, c) && |c| >= 2
      requires forall i :: 0 <= i < |c| ==> 2 <= c[i] < |vars.Vals|
      ensures 2 <= j <= |c|
      ensures forall i :: 2 <= i < j ==> vars.Vals[c[i]] == -1
      ensures j < |c| ==> vars.Vals[c[j]] != -1
      ensures 0 <= q + j < |cdb.cdat.D| && cdb.cdat.D[q + j] == if j == |c| then NULL else c[j]
    {
      j := 2;
      while cdb.cdat.D[q + j] != NULL && vars.Vals[cdb.cdat.D[q + j]] == -1
        invariant 2 <= j <= |c| && cdb.cdat.D[q + j] == if j == |c| then NULL else c[j]
        invariant forall i :: 2 <= i < j ==> vars.Vals[c[i]] == -1
        decreases |c| - j
      {
        j := j + 1;
      }
    }

    /** What is known of entry w, at place i of the list of m, when it comes up. */
    ghost predicate Due(ws: Lists, m: Lit, i: int, w: Watch)
      reads this, vars, cdb, cdb.cdat
    {
      && |ws| == |vars.Watches| == |vars.Vals| && FalseNow(A(), m) && ws == vars.Watches[m := ws[m]]
      && 0 <= i < |ws[m]| && ws[m][i] == w && w.c in cdb.Live()
    }

    /** The blocking literal o is not true: clause q forces o or is in conflict. */
    method visitBinary(m: Lit, w: Watch, ghost ws: Lists, ghost i: int, ghost todo: set<int>) returns (x: int)
      requires POk(ws, m, todo) && Due(ws, m, i, w)
      requires w.bin && vars.Vals[w.other] != 1
      modifies this`D, this`Level, this`Pos, this`Lv, this`Why, this`Starts
      modifies vars`Vals, vars`Levels, vars`Reasons, cdb.cdat
      ensures POk(ws, m, if x == 0 then todo - {w.c} else todo) && FalseNow(A(), m)
      ensures Extends(old(A()), A()) && Reordered(old(cdb.cdat.Cls), cdb.cdat.Cls)
      ensures x >= 0
      ensures x != 0 ==> x in cdb.Live() && m in cdb.Live()[x] && AllFalse(A(), cdb.Live()[x])
    {
      hide PropOk, Layout, Stored, Assigned, Reordered;
      EntryFacts(A(), cdb.Live(), cdb.Full, ws, Head, m, todo, i, w);
      mFirst(w.c, m, w.other, ws, todo);
      RestFalse(A(), cdb.Live()[w.c]);
      if vars.Vals[w.other] == 0 {
        StepAssign(A(), cdb.Live(), cdb.Full, ws, Head, m, todo, w.c);
        Assign(w.other, w.c);
        x := 0;
      } else {
        x := w.c;
      }
    }

    /** The watched literal of clause q that is not m. */
    method other(q: int, m: Lit, ghost c: seq<Lit>) returns (n: Lit)
      requires Stored(cdb.cdat.D, q, c) && |c| >= 2 && c[0] != c[1] && (c[0] == m || c[1] == m)
      ensures n == if c[0] == m then c[1] else c[0]
    {
      n := cdb.cdat.D[q];
      assert n == c[0] && cdb.cdat.D[q + 1] == c[1];
      if n == m {
        n := cdb.cdat.D[q + 1];
      }
    }

    /** No other literal of q can be watched: q forces n or is in conflict. */
    method visitLast(m: Lit, q: int, n: Lit, ghost ws: Lists, ghost todo: set<int>) returns (x: int)
      requires POk(ws, m, todo) && FalseNow(A(), m) && q in cdb.Live() && q > 0
      requires var c := cdb.Live()[q]; |c| >= 2 && ((c[0] == m && c[1] == n) || (c[0] == n && c[1] == m))
      requires AllFalse(A(), cdb.Live()[q][2..])
      requires LitOk(A(), n) && -1 <= vars.Vals[n] <= 0
      modifies this`D, this`Level, this`Pos, this`Lv, this`Why, this`Starts
      modifies vars`Vals, vars`Levels, vars`Reasons, cdb.cdat
      ensures POk(ws, m, if x == 0 then todo - {q} else todo) && FalseNow(A(), m)
      ensures Extends(old(A()), A()) && Reordered(old(cdb.cdat.Cls), cdb.cdat.Cls)
      ensures x >= 0
      ensures x != 0 ==> x in cdb.Live() && m in cdb.Live()[x] && AllFalse(A(), cdb.Live()[x])
    {
      hide PropOk, Layout, Stored, Assigned, Reordered;
      mFirst(q, m, n, ws, todo);
      RestFalse(A(), cdb.Live()[q]);
      if vars.Vals[n] == 0 {
        StepAssign(A(), cdb.Live(), cdb.Full, ws, Head, m, todo, q);
        Assign(cdb.cdat.D[q], q);
        x := 0;
      } else {
        x := q;
      }
    }

    /** Clause q watches its j-th literal instead of m. */
    method moveWatch(m: Lit, q: int, j: int, ghost ws: Lists, ghost i: int, ghost todo: set<int>)
      requires POk(ws, m, todo) && FalseNow(A(), m) && q in cdb.Live()
      requires |ws| == |vars.Watches| == |vars.Vals| && ws == vars.Watches[m := ws[m]]
      requires 0 <= i < |ws[m]| && ws[m][i].c == q
      requires var c := cdb.Live()[q]; 2 <= j < |c| && c[0] != c[1] && (c[0] == m || c[1] == m)
      requires LitOk(A(), cdb.Live()[q][0]) && vars.Vals[cdb.Live()[q][0]] != 1
      requires LitOk(A(), cdb.Live()[q][j]) && vars.Vals[cdb.Live()[q][j]] != -1
      modifies vars`Watches, cdb.cdat
      ensures |vars.Watches| == |ws| && POk(vars.Watches[m := Without(ws[m], i)], m, todo - {q})
      ensures Reordered(old(cdb.cdat.Cls), cdb.cdat.Cls)
    {
      hide PropOk, Layout, Swap;
      ghost var a, cls, dead, live := A(), cdb.cdat.Cls, SetOf(cdb.rmq), cdb.Live();
      ghost var c := live[q];
      assert Stored(cdb.cdat.D, q, c);
      var n := cdb.cdat.D[q + j];
      assert n == c[j];
      ghost var wi := if c[0] == m then 0 else 1;
      StepMove(a, live, cdb.Full, ws, Head, m, todo, i, q, wi, j);
      if cdb.cdat.D[q] == m {
        cdb.cdat.Swap(q, 0, j);
      } else {
        cdb.cdat.Swap(q, 1, j);
      }
      LiveUpdate(cls, dead, q, Swap(c, wi, j));
      SwapReorders(cls, q, wi, j);
      ghost var ws' := ws[m := Without(ws[m], i)][n := ws[n] + [Watch(q, m, false)]];
      vars.Watches := vars.Watches[n := vars.Watches[n] + [Watch(q, m, false)]];
      assert ws' == vars.Watches[m := Without(ws[m], i)];
    }

    /** Visits entry w of the list of m, which became false: keep tells whether the
      entry stays, x is the clause if it is in conflict. */
    method visit(m: Lit, w: Watch, ghost ws: Lists, ghost i: int, ghost todo: set<int>) returns (keep: bool, x: int)
      requires POk(ws, m, todo) && Due(ws, m, i, w)
      modifies this`D, this`Level, this`Pos, this`Lv, this`Why, this`Starts
      modifies vars`Vals, vars`Levels, vars`Reasons, vars`Watches, cdb.cdat
      ensures |vars.Watches| == |vars.Vals| == |ws| && FalseNow(A(), m) && x >= 0
      ensures var ws' := vars.Watches[m := if keep then ws[m] else Without(ws[m], i)];
        POk(ws', m, if x == 0 then todo - {w.c} else todo)
      ensures Extends(old(A()), A()) && Reordered(old(cdb.cdat.Cls), cdb.cdat.Cls)
      ensures x != 0 ==> keep && x in cdb.Live() && m in cdb.Live()[x] && AllFalse(A(), cdb.Live()[x])
    {
      hide PropOk, Layout, Stored, Assigned;
      EntryFacts(A(), cdb.Live(), cdb.Full, ws, Head, m, todo, i, w);
      keep, x := true, 0;
      var o := w.other;
      if vars.Vals[o] == 1 {
        StepKeep(A(), cdb.Live(), cdb.Full, ws, Head, m, todo, w.c, o);
        return;
      }
      if w.bin {
        x := visitBinary(m, w, ws, i, todo);
        return;
      }
      var q := w.c;
      ghost var c := cdb.Live()[q];
      assert Stored(cdb.cdat.D, q, c);
      var n := other(q, m, c);
      if vars.Vals[n] == 1 {
        StepKeep(A(), cdb.Live(), cdb.Full, ws, Head, m, todo, q, n);
        return;
      }
      var j := scan(q, c);
      assert j == |c| ==> AllFalse(A(), c[2..]);
      if cdb.cdat.D[q + j] == NULL {
        x := visitLast(m, q, n, ws, todo);
      } else {
        keep := false;
        moveWatch(m, q, j, ws, i, todo);
      }
    }

    /** Visits every watch of m, which became false. */
    method propLit(m: Lit) returns (x: int)
      requires FalseNow(A(), m) && |vars.Watches| == |vars.Vals|
      requires POk(vars.Watches, m, set w | w in vars.Watches[m] :: w.c)
      modifies this`D, this`Level, this`Pos, this`Lv, this`Why, this`Starts
      modifies vars`Vals, vars`Levels, vars`Reasons, vars`Watches, cdb.cdat
      ensures FalseNow(A(), m) && x >= 0
      ensures x == 0 ==> POk(vars.Watches, m, {})
      ensures x != 0 ==> cdb.cdat.Valid() && LowOk(A(), cdb.Live(), cdb.Full, vars.Watches)
      ensures x != 0 ==> x in cdb.Live() && m in cdb.Live()[x] && AllFalse(A(), cdb.Live()[x])
      ensures Extends(old(A()), A()) && Reordered(old(cdb.cdat.Cls), cdb.cdat.Cls)
    {
      hide PropOk, LowOk, Layout, Stored, Kept, Without, Extends, Reordered;
      var mWatches := vars.Watches[m];
      var i, j := 0, 0;
      x := 0;
      ghost var todo := set w | w in mWatches :: w.c;
      PassStart(mWatches, todo);
      assert vars.Watches[m := mWatches] == vars.Watches;
      Unchanged(A(), cdb.cdat.Cls);
      while x == 0 && i < |mWatches|
        invariant 0 <= j <= i <= |mWatches| && x >= 0
        invariant |vars.Watches| == |vars.Vals| && FalseNow(A(), m)
        invariant POk(vars.Watches[m := Kept(mWatches, i, j)], m, todo)
        invariant forall p :: p in todo ==> InW(mWatches[i..], p)
        invariant Extends(old(A()), A())
        invariant Reordered(old(cdb.cdat.Cls), cdb.cdat.Cls)
        invariant x != 0 ==> x in cdb.Live() && m in cdb.Live()[x] && AllFalse(A(), cdb.Live()[x])
        decreases x == 0, |mWatches| - i
      {
        var w := mWatches[i];
        ghost var a, live, cls := A(), cdb.Live(), cdb.cdat.Cls;
        ghost var ws := vars.Watches[m := Kept(mWatches, i, j)];
        PassStep(mWatches, i, j, todo);
        EntryFacts(a, live, cdb.Full, ws, Head, m, todo, j, w);
        var keep;
        keep, x := visit(m, w, ws, j, todo);
        ExtendsTrans(old(A()), a, A());
        ReorderedTrans(old(cdb.cdat.Cls), cls, cdb.cdat.Cls);
        if x == 0 {
          todo := todo - {w.c};
          if keep {
            mWatches := mWatches[j := w];
            j := j + 1;
          }
          i := i + 1;
        }
      }
      PassEnd(mWatches, i, j, todo);
      vars.Watches := vars.Watches[m := mWatches[..j] + mWatches[i..]];
      if x != 0 {
        ConflictLow(A(), cdb.Live(), cdb.Full, vars.Watches, Head, m, todo);
      }
    }

    /** Unit propagation: assigns all that follows from the literals not yet
      propagated, or returns a clause that became false. */
    method Prop() returns (x: int)
      requires POk(vars.Watches, 0, {})
      modifies this, vars`Vals, vars`Levels, vars`Reasons, vars`Watches, cdb.cdat
      ensures x >= 0 && Head == |D| && cdb.cdat.Valid()
      ensures x == 0 ==> POk(vars.Watches, 0, {})
      ensures x != 0 ==> LowOk(A(), cdb.Live(), cdb.Full, vars.Watches)
      ensures x != 0 ==> x in cdb.Live() && AllFalse(A(), cdb.Live()[x]) && exists m :: m in cdb.Live()[x] && FalseNow(A(), m)
      ensures Extends(old(A()), A()) && Reordered(old(cdb.cdat.Cls), cdb.cdat.Cls)
    {
      hide PropOk, LowOk, Layout, Stored, Extends, Reordered, FalseNow, AllFalse;
      x := 0;
      Unchanged(A(), cdb.cdat.Cls);
      PropShape(A(), cdb.Live(), cdb.Full, vars.Watches, Head);
      while x == 0 && Head < |D|
        invariant x >= 0 && cdb.cdat.Valid() && cdb.vars == vars
        invariant x == 0 ==> POk(vars.Watches, 0, {}) && 0 <= Head <= |D|
        invariant x != 0 ==> LowOk(A(), cdb.Live(), cdb.Full, vars.Watches) && Head == |D|
        invariant x != 0 ==> x in cdb.Live() && AllFalse(A(), cdb.Live()[x]) && exists m :: m in cdb.Live()[x] && FalseNow(A(), m)
        invariant Extends(old(A()), A())
        invariant Reordered(old(cdb.cdat.Cls), cdb.cdat.Cls)
        decreases x == 0, |vars.Vals| - Head
      {
        var m := Not(D[Head]);
        ghost var a, live, cls, h := A(), cdb.Live(), cdb.cdat.Cls, Head;
        PropShape(a, live, cdb.Full, vars.Watches, h);
        ghost var todo := set w | w in vars.Watches[m] :: w.c;
        PropStart(a, live, cdb.Full, vars.Watches, h, m, todo);
        Head := Head + 1;
        x := propLit(m);
        ExtendsTrans(old(A()), a, A());
        ReorderedTrans(old(cdb.cdat.Cls), cls, cdb.cdat.Cls);
        ExtendsSize(a, A());
        if x != 0 {
          Head := |D|;
        } else {
          PropEnd(A(), cdb.Live(), cdb.Full, vars.Watches, Head, m);
        }
      }
    }
  }

  /** A watch list during a visit of all its entries: those kept, in its first j
    places, and those from i on, still to come. */
  ghost function Kept(ws: seq<Watch>, i: int, j: int): seq<Watch>
    requires 0 <= j <= i <= |ws|
  {
    ws[..j] + ws[i..]
  }

  lemma PassStart(ws: seq<Watch>, todo: set<int>)
    requires todo == set w | w in ws :: w.c
    ensures Kept(ws, 0, 0) == ws
    ensures forall p :: p in todo ==> InW(ws[0..], p)
  {
  }

  lemma PassStep(ws: seq<Watch>, i: int, j: int, todo: set<int>)
    requires 0 <= j <= i < |ws| && forall p :: p in todo ==> InW(ws[i..], p)
    ensures |Kept(ws, i, j)| > j && Kept(ws, i, j)[j] == ws[i]
    ensures Without(Kept(ws, i, j), j) == Kept(ws, i + 1, j)
    ensures Kept(ws[j := ws[i]], i + 1, j + 1) == Kept(ws, i, j)
    ensures forall p :: p in todo - {ws[i].c} ==> InW(ws[i + 1..], p) && InW(ws[j := ws[i]][i + 1..], p)
  {
  }

  lemma PassEnd(ws: seq<Watch>, i: int, j: int, todo: set<int>)
    requires 0 <= j <= i <= |ws| && forall p :: p in todo ==> InW(ws[i..], p)
    ensures Kept(ws, i, j) == ws[..j] + ws[i..]
    ensures i == |ws| ==> todo == {}
  {
    forall p | p in todo ensures i < |ws| {
      assert InW(ws[i..], p);
    }
  }

  lemma Unchanged(a: Asn, cls: Cls)
    ensures Extends(a, a) && Reordered(cls, cls)
  {
  }

  /** A clause whose literals but the first are false is unit or in conflict. */
  lemma RestFalse(a: Asn, c: seq<Lit>)
    requires |c| >= 2 && LitOk(a, c[1]) && a.vals[c[1]] == -1 && AllFalse(a, c[2..])
    ensures AllFalse(a, c[1..])
    ensures LitOk(a, c[0]) && a.vals[c[0]] == -1 ==> AllFalse(a, c)
  {
  }

  lemma SwapEnds(c: seq<Lit>)
    requires |c| >= 2
    ensures |Swap(c, 0, 1)| == |c| && Swap(c, 0, 1)[0] == c[1] && Swap(c, 0, 1)[1] == c[0] && Swap(c, 0, 1)[2..] == c[2..]
  {
  }
}
