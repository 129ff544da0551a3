/** The solver (internal/xo/s.go). */
module Solver {
  import opened Lits
  import opened Counting
  import opened Assignment
  import opened Clauses
  import opened Watching
  import opened Propagation
  import opened FlatStore
  import opened Relocation
  import opened Database
  import opened Guesses
  import opened Trails
  import opened Resolution
  import opened Minimization
  import opened Derivers
  import opened Collector
  import opened Lubys
  import opened Soundness
  import opened Progress
  import opened Search
  import opened Growth
  import opened Cores

  // per call of Solve no restart before this many conflicts
  const RESTART_AFTER := 1000
  const RESTART_FACTOR := 768

  class S {
    const vars: Vars
    const cdb: Cdb
    const trail: Trail
    const guess: Guess
    const driver: Deriver
    const gc: Cgc
    var luby: Luby
    var x: int               // the clause in conflict, or 0
    var xLit: Lit            // a false assumption, or null
    var assumptLevel: int
    var assumes: seq<Lit>
    var failed: seq<Lit>
    var restartStopwatch: int
    ghost var F: set<seq<Lit>>    // all clauses added so far, as they were given
    ghost var Asked: seq<Lit>     // the assumptions of the last call of Solve

    constructor (vCapHint: int)
      ensures Ready() && x == 0 && xLit == NULL && F == {} && assumes == [] && cdb.AddLits == [] && vars.Max == 0
      ensures fresh(vars) && fresh(cdb) && fresh(cdb.cdat) && fresh(trail) && fresh(guess) && fresh(driver)
      ensures fresh(gc) && fresh(gc.luby) && fresh(luby)
    {
      hide Good, Settled, ListsOk, MaxHeap, Indexed, InRange, After;
      var capHint := if vCapHint < 3 then 3 else vCapHint;
      var top := capHint + 1;
      var v := new Vars(top);
      var c := new Cdb(v);
      var g := new Guess(top + 1);
      var t := new Trail(c, g);
      var d := new Deriver(c, g, t);
      var l := new Luby();
      var cgc := new Cgc(c, t);
      vars, cdb, guess, trail, driver, gc, luby := v, c, g, t, d, cgc, l;
      x, xLit, assumptLevel, assumes, failed, restartStopwatch := 0, NULL, 0, [], [], 0;
      F, Asked := {}, [];
      new;
      assert driver.Idle();
      Initial(top);
    }

    lemma Initial(top: int)
      requires top >= 4 && Links() && guess.Valid() && driver.Idle() && gc.luby.Valid() && cdb.cdat.Valid() && F == {}
      requires cdb.cdat.Cls == map[] && cdb.Full == {} && cdb.Added == cdb.Learnts == cdb.rmq == [] && cdb.Bot == 0 && cdb.AddLits == []
      requires |cdb.AddVals| == top && forall k :: 0 <= k < top ==> cdb.AddVals[k] == 0
      requires |vars.Vals| == |vars.Watches| == 2 * top && |vars.Reasons| == |vars.Levels| == top && trail.Pos == vars.Reasons
      requires trail.D == trail.Lv == trail.Why == trail.Starts == [] && trail.Level == trail.Head == 0 && vars.Max == 0 && vars.Top == top
      requires forall k :: 0 <= k < 2 * top ==> vars.Vals[k] == 0 && vars.Watches[k] == []
      requires forall k :: 0 <= k < top ==> vars.Reasons[k] == 0 && vars.Levels[k] == 0 && !driver.Seen[k]
      requires |guess.pos| == top + 1 && forall k :: 0 <= k <= top ==> guess.pos[k] == -1
      ensures Ready()
    {
      hide Good, Settled, ListsOk, MaxHeap, Indexed, InRange, After;
      InitLists(cdb.cdat.Cls, cdb.Added, cdb.Learnts, cdb.rmq);
      InitGood(F, St(), top);
    }

    /** The state of the search. */
    ghost function St(): State
      reads vars, cdb, cdb.cdat, trail, trail.vars, guess, driver
    {
      State(trail.A(), cdb.Live(), cdb.AddedSet(), cdb.Full, cdb.Bot, vars.Watches, driver.Seen, guess.pos, vars.Max)
    }

    ghost predicate Links() {
      && cdb.vars == trail.vars == driver.vars == gc.vars == vars && trail.cdb == driver.cdb == gc.cdb == cdb
      && trail.guess == driver.guess == guess && driver.trail == gc.trail == trail
    }

    /** The clause being added and the scratch marks. */
    ghost predicate AddOk()
      reads cdb, vars
    {
      && |cdb.AddVals| == |vars.Reasons| && (forall x :: 0 <= x < |cdb.AddVals| ==> cdb.AddVals[x] == 0)
      && forall k :: k in cdb.AddLits ==> 2 <= k <= 2 * vars.Max + 1
    }

    /** The parts are in order, each for itself. */
    ghost predicate Shape()
      reads vars, cdb, cdb.cdat, guess, driver, driver.vars, gc, gc.luby
    {
      && Links() && cdb.Valid() && guess.Valid() && driver.Idle() && gc.luby.Valid() && AddOk()
      && vars.Max < vars.Top <= |vars.Reasons| && |guess.pos| == vars.Top + 1
    }

    ghost predicate Valid()
      reads this`F, vars, cdb, cdb.cdat, trail, trail.vars, guess, driver, driver.vars, gc, gc.luby
    {
      Shape() && Good(F, St())
    }

    /** Propagation has got to place trail.Head and is in order. */
    ghost predicate Ready()
      reads this`F, vars, cdb, cdb.cdat, trail, trail.vars, guess, driver, driver.vars, gc, gc.luby
    {
      Valid() && Settled(St(), trail.Head)
    }

    lemma ReadyParts()
      requires Ready()
      ensures Good(F, St()) && AsnOk(trail.A()) && Sizes(trail.A()) && Low(St()) && vars == trail.vars
      ensures Core(trail.A(), cdb.Live()) && ReasonsOk(trail.A(), cdb.Live())
    {
      hide Good, ListsOk, Layout, Indexed, InRange, MaxHeap;
      SettledParts(St(), trail.Head);
    }

    lemma ReadySettled()
      requires Ready()
      ensures Settled(St(), trail.Head) && St().a == trail.A() && St().cls == cdb.Live()
    {
    }

    /** There is one list or entry for each variable or literal. */
    lemma RoomFacts()
      requires Valid() && Low(St())
      ensures Sizes(trail.A()) && |vars.Watches| == |vars.Vals| && |vars.Reasons| <= |guess.pos|
    {
    }

    ghost predicate Conflict(c: int)
      reads vars, cdb, cdb.cdat, trail, trail.vars, guess, driver
    {
      Clash(St(), c)
    }

    method propagate(ghost asked: seq<Lit>, ghost l: int) returns (c: int)
      requires Ready() && Under(trail.A(), asked, l)
      modifies trail, vars`Vals, vars`Levels, vars`Reasons, vars`Watches, cdb.cdat
      ensures Valid() && trail.Head == |trail.D| && Under(trail.A(), asked, l) && c >= 0
      ensures c == 0 ==> Ready()
      ensures c != 0 ==> Conflict(c)
      ensures trail.Level == old(trail.Level) && |vars.Reasons| == old(|vars.Reasons|)
      ensures Rank(old(trail.A())) <= Rank(trail.A())
    {
      hide Core, AsnOk, Sizes, ReasonsOk, ListsOk, Layout, Stored, Reordered, Extends, Under, Faithful, SeenFits, HeapOk, InMax, Indexed, InRange, MaxHeap, Rank, AllFalse, FalseNow;
      ghost var s, cls := St(), cdb.cdat.Cls;
      SettledParts(s, trail.Head);
      c := trail.Prop();
      ReorderedLive(cls, cdb.cdat.Cls, cdb.Added, cdb.Learnts, cdb.rmq);
      if c == 0 {
        SettledParts(St(), trail.Head);
      } else {
        LowParts(St());
      }
      AsnSizes(s.a);
      AsnSizes(trail.A());
      ExtendsSize(s.a, trail.A());
      PropGood(F, s, St());
      ExtendsDecides(s.a, trail.A());
      PropUnder(s.a, trail.A(), asked, l);
    }

    /** Derives and stores a clause from the conflict c. */
    method derive(c: int) returns (P: int, unit: Lit, target: int, ghost o: Origin)
      requires Valid() && Conflict(c) && trail.Level > 0
      modifies driver, cdb`Learnts, cdb`Bot, cdb.cdat, vars`Watches
      modifies guess`pos, guess`vhp, guess`heat, guess`bumpInc
      ensures Valid() && Low(St()) && cdb.Bot == old(cdb.Bot)
      ensures P > 0 && P in cdb.Live() && |cdb.Live()[P]| >= 1 && unit == cdb.Live()[P][0] && LearntOk(trail.A(), cdb.Live()[P], target)
      ensures AsnOk(trail.A()) && target < trail.Level && P !in old(cdb.Live())
      ensures DerivedBy(trail.A(), old(cdb.Live()), c, old(driver.Lvls), o, cdb.Live()[P], target)
    {
      hide DerivedBy, Core, AsnOk, Sizes, ReasonsOk, ListsOk, Layout, Stored, Faithful, HeapOk, InMax, Indexed, InRange, MaxHeap, AllFalse, FalseNow, LearntOk, Entailed, SeenOk, WithWatches, ClauseOk, LowOk, LitSet, SameVars, InBound;
      ghost var s := St();
      ConflictNow(s, c);
      LowParts(s);
      GoodParts(F, s);
      BackHeap(F, s, guess.pos);
      BoundMax(F, s);
      WatchedSize(s.cls, s.ws, |s.a.vals|);
      P, unit, target, o := driver.Derive(c, 2 * vars.Max + 1);
      LearntClause(s.a, driver.CLits, target);
      LearntTarget(s.a, driver.CLits, target);
      LearnLow(s, P, driver.CLits);
      SeenFit(s.a, driver.Seen);
      LearnGood(F, s, St(), P, driver.CLits);
    }

    /** Goes back to level tgt. */
    method back(tgt: int)
      requires Valid() && Low(St()) && 0 <= tgt && (tgt >= trail.Level ==> Ready())
      modifies trail, vars`Vals, vars`Levels, vars`Reasons
      modifies guess`pos, guess`vhp, guess`cache
      ensures Ready() && |vars.Reasons| == |old(vars.Reasons)| && AsnOk(trail.A())
      ensures tgt < old(trail.Level) ==>
        trail.Head == |trail.D| && IsCut(old(trail.A()), trail.A(), trail.Head, tgt) && trail.Level == tgt
      ensures tgt >= old(trail.Level) ==> trail.A() == old(trail.A()) && trail.Head == old(trail.Head)
    {
      hide Core, AsnOk, Sizes, ReasonsOk, ListsOk, Layout, Stored, Faithful, SeenFits, InMax, HeapOk, Indexed, InRange, MaxHeap, IsCut, LowOk;
      if trail.Level <= tgt {
        LowParts(St());
        return;
      }
      ghost var s := St();
      LowParts(s);
      BackHeap(F, s, guess.pos);
      trail.Back(tgt);
      CutSizes(s.a, trail.A(), trail.Head, tgt);
      TrailVars(s.a);
      forall u | 0 <= u < |s.pos| && s.pos[u] != -1 ensures guess.pos[u] != -1 {
        assert old(guess.Has(u));
        assert guess.Has(u);
      }
      forall u | 0 <= u < |s.pos| && guess.pos[u] != -1 ensures 1 <= u && 2 * u + 1 < |s.a.vals| {
        assert guess.Has(u);
      }
      CutHeap(s.a, trail.A(), trail.Head, tgt, s.pos, guess.pos, vars.Max);
      CutGood(F, s, St(), trail.Head, tgt);
      CutSettled(s, St(), trail.Head, tgt);
    }

    /** Assigns m where this leaves all in order. */
    method assign(m: Lit, c: int)
      requires Shape() && AsnOk(trail.A()) && Sizes(trail.A()) && LitOk(trail.A(), m)
      requires var t := St().(a := Assigned(trail.A(), m, c)); Good(F, t) && Settled(t, trail.Head)
      modifies trail, vars`Vals, vars`Levels, vars`Reasons
      ensures Ready() && trail.A() == Assigned(old(trail.A()), m, c) && |vars.Reasons| == |old(vars.Reasons)|
      ensures St() == old(St()).(a := trail.A()) && trail.Head == old(trail.Head)
    {
      hide AsnOk, Assigned, ListsOk, Layout, Stored, Good, Settled, Indexed, InRange, MaxHeap, After;
      ghost var t := St().(a := Assigned(trail.A(), m, c));
      AssignedSizes(trail.A(), m, c);
      trail.Assign(m, c);
      assert St() == t;
    }

    /** Assigns the literal m that the derived clause c forces. */
    method force(m: Lit, c: int, ghost asked: seq<Lit>, ghost l: int)
      requires Ready() && CanAssign(trail.A(), cdb.Live(), m, c) && c != 0 && Under(trail.A(), asked, l)
      modifies trail, vars`Vals, vars`Levels, vars`Reasons
      ensures Ready() && Under(trail.A(), asked, l)
      ensures LitOk(old(trail.A()), m) && trail.A() == Assigned(old(trail.A()), m, c) && |vars.Reasons| == |old(vars.Reasons)|
      ensures St() == old(St()).(a := trail.A()) && trail.Head == old(trail.Head)
    {
      hide Core, AsnOk, ReasonsOk, Assigned, ListsOk, Layout, Stored, Good, Settled, Indexed, InRange, MaxHeap, Under, CanAssign;
      ghost var s := St();
      SettledParts(s, trail.Head);
      CanAssignParts(s.a, s.cls, m, c);
      AssignUnder(s.a, asked, l, m, c);
      AssignSettled(s, trail.Head, m, c);
      AssignUnit(F, s, m, c);
      assign(m, c);
    }

    method countConflict()
      requires Ready()
      modifies guess`bumpInc, cdb.cdat`bumpInc, gc`stopWatch, this`restartStopwatch
      ensures Ready() && restartStopwatch == old(restartStopwatch) - 1 && cdb.Live() == old(cdb.Live())
      ensures gc.stopWatch == if old(gc.stopWatch) > 0 then old(gc.stopWatch) - 1 else old(gc.stopWatch)
    {
      hide Good, Settled, ListsOk, Layout, Stored, After;
      guess.Decay();
      cdb.cdat.Decay();
      gc.Tick();
      restartStopwatch := restartStopwatch - 1;
    }

    /** Deals with the conflict c: derives a clause P, goes back, but not below level l,
      and assigns what the clause forces there.  If the second literal is at the level
      reached, propagation is complete for P from now on. */
    method resolve(c: int, l: int, ghost asked: seq<Lit>) returns (ghost P: int, ghost o: Origin, ghost target: int)
      requires Valid() && Conflict(c) && trail.Level > l && Under(trail.A(), asked, l)
      modifies driver, trail, cdb`Learnts, cdb`Full, cdb`Bot, cdb.cdat, vars`Vals, vars`Levels, vars`Reasons, vars`Watches
      modifies guess
      ensures Ready() && Under(trail.A(), asked, l) && cdb.Bot == old(cdb.Bot) && |vars.Reasons| == |old(vars.Reasons)|
      ensures P in cdb.Live() && P !in old(cdb.Live()) && |cdb.Live()[P]| >= 1
      ensures var d := cdb.Live()[P];
        cdb.Full == if |d| >= 2 && vars.Levels[Var(d[1])] == trail.Level then old(cdb.Full) + {P} else old(cdb.Full)
      ensures DerivedBy(old(trail.A()), old(cdb.Live()), c, old(driver.Lvls), o, cdb.Live()[P], target)
      ensures trail.Level == (if target < l then l else target) < old(trail.Level)
      ensures Rank(trail.A()) > Rank(old(trail.A()))
    {
      hide DerivedBy, Valid, Ready, Conflict, Low, LearntOk, Under, IsCut, AsnOk, CanAssign, Rank, Assigned, AllFalse, FalseNow, Indexed, InRange, MaxHeap;
      ghost var a := trail.A();
      UnderLevel(a, asked, l);
      var p, unit, t, from := derive(c);
      P, o, target := p, from, t;
      var tgt := if t < l then l else t;
      ghost var d := cdb.Live()[P];
      AsnSizes(a);
      back(tgt);
      ghost var s := St();
      JumpStep(a, trail.A(), trail.Head, tgt, cdb.Live(), P, d, target, asked, l);
      ReadySettled();
      force(unit, p, asked, l);
      enroll(a, s, tgt, P, d, target);
    }

    /** A conflict of the search above the level of the assumptions. */
    method learn(c: int, ghost asked: seq<Lit>) returns (ghost P: int, ghost o: Origin, ghost target: int)
      requires Valid() && Conflict(c) && trail.Level > assumptLevel && Under(trail.A(), asked, assumptLevel)
      modifies driver, trail, cdb`Learnts, cdb`Full, cdb`Bot, cdb.cdat, vars`Vals, vars`Levels, vars`Reasons, vars`Watches
      modifies guess, gc`stopWatch, this`restartStopwatch
      ensures Ready() && Under(trail.A(), asked, assumptLevel) && cdb.Bot == old(cdb.Bot)
      ensures P in cdb.Live() && P !in old(cdb.Live()) && |cdb.Live()[P]| >= 1
      ensures var d := cdb.Live()[P];
        cdb.Full == if |d| >= 2 && vars.Levels[Var(d[1])] == trail.Level then old(cdb.Full) + {P} else old(cdb.Full)
      ensures restartStopwatch == old(restartStopwatch) - 1 && |vars.Reasons| == |old(vars.Reasons)|
      ensures DerivedBy(old(trail.A()), old(cdb.Live()), c, old(driver.Lvls), o, cdb.Live()[P], target)
      ensures trail.Level == if target < assumptLevel then assumptLevel else target
      ensures Rank(trail.A()) > Rank(old(trail.A()))
    {
      hide DerivedBy, Valid, Ready, Conflict, Under, Rank, Indexed, InRange, MaxHeap;
      P, o, target := resolve(c, assumptLevel, asked);
      countConflict();
    }

    /** Propagation is complete for the derived clause p as well, if it is. */
    ghost method enroll(a: Asn, s: State, tgt: int, p: int, d: seq<Lit>, target: int)
      requires Ready() && AsnOk(a) && IsCut(a, s.a, trail.Head, tgt) && LearntOk(a, d, target) && target <= tgt < a.level
      requires Settled(s, trail.Head) && p > 0 && p in s.cls && s.cls[p] == d && |d| >= 1 && Sizes(s.a) && LitOk(s.a, d[0])
      requires St() == s.(a := Assigned(s.a, d[0], p))
      modifies cdb`Full
      ensures Ready() && trail.Level == tgt && Sizes(trail.A()) && forall k :: 0 <= k < |d| ==> 0 <= Var(d[k]) < |vars.Levels|
      ensures cdb.Full == if |d| >= 2 && vars.Levels[Var(d[1])] == trail.Level then old(cdb.Full) + {p} else old(cdb.Full)
    {
      hide Good, Settled, IsCut, LearntOk, AsnOk, Assigned, ListsOk, Layout, Stored, Indexed, InRange, MaxHeap, After;
      LearntRoom(a, s.a, trail.Head, tgt, p, d, target);
      assert trail.A() == Assigned(s.a, d[0], p) && trail.A().levels == vars.Levels;
      if |d| >= 2 {
        JumpFull(a, s, trail.Head, tgt, p, d, target);
        JumpLevel(a, s.a, trail.Head, tgt, p, d, target);
        if vars.Levels[Var(d[1])] == trail.Level {
          GoodFull(F, St(), cdb.Full + {p});
          cdb.Full := cdb.Full + {p};
          assert St() == s.(a := Assigned(s.a, d[0], p), full := s.full + {p});
        }
      }
    }

    /** Starts again from the assumptions. */
    method restart(ghost asked: seq<Lit>)
      requires Ready() && Under(trail.A(), asked, assumptLevel) && luby.Valid() && luby != gc.luby && trail.Head == |trail.D|
      modifies luby, this`restartStopwatch, trail, vars`Vals, vars`Levels, vars`Reasons
      modifies guess`pos, guess`vhp, guess`cache
      ensures Ready() && Under(trail.A(), asked, assumptLevel) && trail.Head == |trail.D|
      ensures luby.Valid() && luby.calls == old(luby.calls) + 1 && restartStopwatch == LubyAt(luby.calls) * RESTART_FACTOR
      ensures trail.Level == assumptLevel
      ensures old(trail.Level) > assumptLevel ==> Sizes(old(trail.A())) && IsCut(old(trail.A()), trail.A(), trail.Head, assumptLevel)
      ensures |vars.Reasons| == |old(vars.Reasons)|
    {
      hide Good, Settled, Under, IsCut, AsnOk, After, LubyAt, ListsOk, Layout, Stored, Indexed, InRange, MaxHeap;
      ghost var a := trail.A();
      UnderLevel(a, asked, assumptLevel);
      SettledParts(St(), trail.Head);
      var nxt := luby.Next();
      restartStopwatch := nxt * RESTART_FACTOR;
      back(assumptLevel);
      if assumptLevel < a.level {
        CutUnder(a, trail.A(), trail.Head, assumptLevel, asked, assumptLevel);
      }
    }

    /** All is as it should be but for the variable v, just taken off the heap. */
    ghost predicate Chosen(m: Lit)
      reads this`F, vars, cdb, cdb.cdat, trail, trail.vars, guess, driver, driver.vars, gc, gc.luby
    {
      && Shape() && GoodBut(F, St(), Var(m)) && Settled(St(), trail.Head)
      && LitOk(trail.A(), m) && vars.Vals[m] == 0
    }

    /** No unassigned variable is hotter than that of m, whose sign is the one noted. */
    ghost predicate Hottest(m: Lit)
      reads vars, guess
    {
      && 0 <= Var(m) < |guess.heat| == |guess.cache| && (IsPos(m) <==> guess.cache[Var(m)] != -1)
      && vars.Max < |guess.heat| && 2 * vars.Max < |vars.Vals|
      && forall u :: 1 <= u <= vars.Max && vars.Vals[2 * u] == 0 ==> guess.heat[u] <= guess.heat[Var(m)]
    }

    /** A hottest unassigned variable, or null if all are assigned. */
    method choose() returns (m: Lit)
      requires Ready()
      modifies guess`pos, guess`vhp
      ensures m == NULL ==> Ready() && forall u :: 1 <= u <= vars.Max ==> vars.Vals[2 * u] != 0
      ensures m != NULL ==> Chosen(m) && Hottest(m)
    {
      hide Good, GoodBut, AsnOk, ListsOk, Layout, Stored, Indexed, InRange, MaxHeap, Settled;
      ghost var s := St();
      SettledParts(s, trail.Head);
      BackHeap(F, s, guess.pos);
      m := guess.Guess(vars.Vals);
      forall u | 0 <= u < |s.pos|
        ensures guess.pos[u] != -1 ==> s.pos[u] != -1
        ensures s.pos[u] != -1 && s.a.vals[2 * u] == 0 && (m == NULL || u != Var(m)) ==> guess.pos[u] != -1
        ensures s.pos[u] != -1 && m == NULL ==> s.a.vals[2 * u] != 0
      {
        assert guess.Has(u) <==> guess.pos[u] != -1;
        assert old(guess.Has(u)) <==> s.pos[u] != -1;
      }
      ChooseGood(F, s, St(), m, trail.Head);
    }

    /** Runs the collector when it is due. */
    method maybeCompact(m: Lit, ghost asked: seq<Lit>)
      requires Chosen(m) && trail.Head == |trail.D| && Under(trail.A(), asked, assumptLevel) && cdb.Bot == 0
      modifies gc, gc.luby, cdb`AddLits, cdb`AddVals
      modifies cdb`Learnts, cdb`Added, cdb`Full, cdb`rmq, cdb.cdat, vars`Reasons, vars`Watches, trail`Why
      ensures Chosen(m) && Under(trail.A(), asked, assumptLevel)
      ensures gc.Unlinks >= old(gc.Unlinks) && cdb.AddLits == if gc.Unlinks == old(gc.Unlinks) then old(cdb.AddLits) else []
      ensures Rank(trail.A()) == Rank(old(trail.A())) && |vars.Reasons| == |old(vars.Reasons)|
      ensures gc.luby.calls == if old(gc.stopWatch) <= 0 then old(gc.luby.calls) + 1 else old(gc.luby.calls)
      ensures gc.stopWatch == if old(gc.stopWatch) <= 0 then LubyAt(gc.luby.calls) * 2048 else old(gc.stopWatch)
    {
      hide LubyAt, After, Chosen, Under, Rank, AsnOk, Indexed, InRange, MaxHeap;
      if gc.Ready() {
        compact(m, asked);
      }
    }

    method compact(m: Lit, ghost asked: seq<Lit>)
      requires Chosen(m) && trail.Head == |trail.D| && Under(trail.A(), asked, assumptLevel) && cdb.Bot == 0
      modifies gc, gc.luby, cdb`AddLits, cdb`AddVals
      modifies cdb`Learnts, cdb`Added, cdb`Full, cdb`rmq, cdb.cdat, vars`Reasons, vars`Watches, trail`Why
      ensures Chosen(m) && Under(trail.A(), asked, assumptLevel)
      ensures gc.Unlinks >= old(gc.Unlinks) && cdb.AddLits == if gc.Unlinks == old(gc.Unlinks) then old(cdb.AddLits) else []
      ensures Rank(trail.A()) == Rank(old(trail.A())) && |vars.Reasons| == |old(vars.Reasons)|
      ensures gc.luby.calls == old(gc.luby.calls) + 1 && gc.stopWatch == LubyAt(gc.luby.calls) * 2048
    {
      hide LubyAt, GoodBut, Settled, AsnOk, ListsOk, Layout, Stored, AllStored, Indexed, InRange, MaxHeap, RelocLists, RelocAll, Collected, After, Under, Core, WatchesOk, Rank, Words, HeadersKept, Removable, HalfGone, Image;
      ghost var s, learnts, added := St(), cdb.Learnts, cdb.Added;
      SettledParts(s, trail.Head);
      NoneEmpty(F, s, m);
      AsnSizes(s.a);
      ListsMembers(cdb.cdat.Cls, cdb.Added, cdb.Learnts, cdb.rmq);
      ghost var rms, rl := gc.Compact();
      ghost var rm := SetOf(rms);
      cdb.Full := Image(cdb.Full - rm, rl);
      CollectStep(F, s, St(), trail.Head, learnts, added, rm, rl, Var(m));
      CollectUnder(s.a, trail.A(), s.cls, cdb.Live(), learnts, rm, rl, asked, assumptLevel);
    }

    /** Decides on m. */
    method decide(m: Lit, ghost asked: seq<Lit>)
      requires Chosen(m) && trail.Head == |trail.D| && Under(trail.A(), asked, assumptLevel)
      modifies trail, vars`Vals, vars`Levels, vars`Reasons
      ensures Ready() && Under(trail.A(), asked, assumptLevel)
      ensures Rank(trail.A()) > Rank(old(trail.A())) && |vars.Reasons| == |old(vars.Reasons)|
      ensures LitOk(old(trail.A()), m) && trail.A() == Assigned(old(trail.A()), m, 0)
    {
      hide AsnOk, Assigned, ListsOk, Layout, Stored, Good, GoodBut, Settled, Indexed, InRange, MaxHeap, Under, Rank;
      ghost var s := St();
      SettledParts(s, trail.Head);
      AssignUnder(s.a, asked, assumptLevel, m, 0);
      AssignSettled(s, trail.Head, m, 0);
      AssignGood(F, s, m, 0);
      RankAssign(s.a, m, 0);
      assign(m, 0);
    }

    /** The last call found no model: a clause is false, or the assumption xLit, and all
      decisions are assumptions. */
    ghost predicate Failing(asked: seq<Lit>)
      reads this`F, this`x, this`xLit, vars, cdb, cdb.cdat, trail, trail.vars, guess, driver, driver.vars, gc, gc.luby
    {
      && Valid() && Low(St()) && DecisionsIn(trail.A(), asked, trail.Level)
      && (if xLit != NULL then xLit in asked && LitOk(trail.A(), xLit) && vars.Vals[xLit] == -1 && xLit <= 2 * vars.Max + 1
          else x in cdb.Live() && AllFalse(trail.A(), cdb.Live()[x]))
    }

    lemma FailingRefutes(asked: seq<Lit>)
      requires Failing(asked)
      ensures Refuted(F, asked) && (x != 0 || xLit != NULL)
    {
      hide AsnOk, ReasonsOk, Sound, DecisionsIn, AllFalse, Low, Good, Refuted, Indexed, InRange, MaxHeap, ListsOk, Layout;
      LowParts(St());
      GoodParts(F, St());
      if xLit != NULL {
        UnsatFalse(F, trail.A(), cdb.Live(), xLit, asked);
      } else {
        UnsatConflict(F, trail.A(), cdb.Live(), x, asked);
      }
    }

    /** Assumes m after the assumptions held. */
    method makeAssumption(m: Lit, ghost held: seq<Lit>) returns (r: int)
      requires Ready() && trail.Head == |trail.D| && trail.Level == assumptLevel && Under(trail.A(), held, assumptLevel)
      requires 2 <= m <= 2 * vars.Max + 1 && x == 0 && xLit == NULL
      modifies this`assumptLevel, this`x, this`xLit, trail, vars`Vals, vars`Levels, vars`Reasons, vars`Watches, cdb.cdat
      ensures r == 0 || r == -1
      ensures r == 0 ==> Ready() && trail.Head == |trail.D| && trail.Level == assumptLevel && Under(trail.A(), held + [m], assumptLevel)
      ensures r == 0 ==> x == 0 && xLit == NULL
      ensures r == -1 ==> Failing(held + [m]) && Callable()
    {
      hide Valid, Good, Settled, Low, AsnOk, Under, DecisionsIn, AllFalse, FalseNow, Indexed, InRange, MaxHeap;
      ghost var s := St();
      ReadyParts();
      UnderLevel(s.a, held, assumptLevel);
      InUse(F, s, m);
      if vars.Vals[m] == 0 {
        assumptLevel := assumptLevel + 1;
        assignAssumption(m, held);
        var c := propagate(held + [m], assumptLevel);
        if c != 0 {
          x := c;
          UnderDecisions(trail.A(), held + [m], trail.Level);
          return -1;
        }
        return 0;
      }
      if vars.Vals[m] == 1 {
        HoldsUnder(s.a, held, m);
        return 0;
      }
      xLit := m;
      UnderDecisions(s.a, held, s.a.level);
      DecisionsMore(s.a, held, m, s.a.level);
      return -1;
    }

    /** Decides on the assumption m. */
    method assignAssumption(m: Lit, ghost held: seq<Lit>)
      requires Ready() && trail.Head == |trail.D| && Under(trail.A(), held, trail.Level)
      requires LitOk(trail.A(), m) && vars.Vals[m] == 0
      modifies trail, vars`Vals, vars`Levels, vars`Reasons
      ensures Ready() && trail.Level == old(trail.Level) + 1 && Under(trail.A(), held + [m], trail.Level)
    {
      hide AsnOk, Assigned, ListsOk, Layout, Stored, Good, Settled, Indexed, InRange, MaxHeap, Under;
      ghost var s := St();
      SettledParts(s, trail.Head);
      AssumeUnder(s.a, held, m);
      AssignSettled(s, trail.Head, m, 0);
      AssignUnit(F, s, m, 0);
      assign(m, 0);
    }

    /** Makes the assumptions, propagating after each. */
    method makeAssumptions() returns (r: int)
      requires Ready() && trail.Level == 0 && x == 0 && xLit == NULL
      requires forall m :: m in assumes ==> 2 <= m <= 2 * vars.Max + 1
      modifies this`assumptLevel, this`x, this`xLit, this`assumes, this`Asked
      modifies trail, vars`Vals, vars`Levels, vars`Reasons, vars`Watches, cdb.cdat
      ensures Asked == old(assumes) && assumes == [] && (r == 0 || r == -1)
      ensures r == 0 ==> Ready() && trail.Head == |trail.D| && Under(trail.A(), Asked, assumptLevel)
      ensures r == 0 ==> cdb.Bot == 0 && x == 0 && xLit == NULL
      ensures r == -1 ==> Failing(Asked) && Callable()
    {
      hide Valid, Ready, Failing, Callable, Conflict, Under, AsnOk, Rank, Indexed, InRange, MaxHeap;
      assumptLevel := trail.Level;
      var ms := assumes;
      Asked := ms;
      assumes := [];
      NothingHere();
      if cdb.Bot != 0 {
        x := cdb.Bot;
        FailsBot();
        return -1;
      }
      var c := propagate([], 0);
      if c != 0 {
        x := c;
        FailsNow([], Asked);
        return -1;
      }
      r := assumeAll(ms);
    }

    lemma NothingHere()
      requires Ready()
      ensures Under(trail.A(), [], 0)
    {
      hide Valid, Settled, AsnOk, Under, Indexed, InRange, MaxHeap;
      ReadyParts();
      NothingUnder(trail.A());
    }

    /** An empty clause was added. */
    lemma FailsBot()
      requires Ready() && x == cdb.Bot != 0 && xLit == NULL && trail.Level == 0
      ensures Failing(Asked) && Callable()
    {
      hide Valid, Good, AsnOk, DecisionsIn, AllFalse, Under, Conflict, Indexed, InRange, MaxHeap;
      ReadyParts();
      ReadyCallable();
      NothingHere();
      BotFalse(F, St());
      UnderDecisions(trail.A(), [], 0);
      DecisionsAll(trail.A(), [], Asked, 0);
    }

    /** A clause is in conflict while nothing but assumptions was decided. */
    lemma FailsNow(held: seq<Lit>, asked: seq<Lit>)
      requires Valid() && x != 0 && xLit == NULL && cdb.Bot == 0 && Conflict(x)
      requires Under(trail.A(), held, trail.Level) && held <= asked
      ensures Failing(asked) && Callable()
    {
      hide Valid, Good, AsnOk, DecisionsIn, AllFalse, Under, Low, FalseNow, Indexed, InRange, MaxHeap;
      ConflictCallable();
      UnderDecisions(trail.A(), held, trail.Level);
      assert forall m :: m in held ==> m in asked;
      DecisionsAll(trail.A(), held, asked, trail.Level);
    }

    method assumeAll(ms: seq<Lit>) returns (r: int)
      requires Ready() && trail.Head == |trail.D| && trail.Level == assumptLevel && Under(trail.A(), [], assumptLevel)
      requires x == 0 && xLit == NULL && forall m :: m in ms ==> 2 <= m <= 2 * vars.Max + 1
      modifies this`assumptLevel, this`x, this`xLit
      modifies trail, vars`Vals, vars`Levels, vars`Reasons, vars`Watches, cdb.cdat
      ensures r == 0 || r == -1
      ensures r == 0 ==> Ready() && trail.Head == |trail.D| && Under(trail.A(), ms, assumptLevel) && x == 0 && xLit == NULL
      ensures r == -1 ==> Failing(ms) && Callable()
    {
      hide Valid, Ready, Failing, Under, Indexed, InRange, MaxHeap;
      assert ms[..0] == [];
      for i := 0 to |ms|
        invariant Ready() && trail.Head == |trail.D| && trail.Level == assumptLevel && Under(trail.A(), ms[..i], assumptLevel)
        invariant x == 0 && xLit == NULL && vars.Max == old(vars.Max)
      {
        var m := ms[i];
        assert m in ms;
        assert ms[..i + 1] == ms[..i] + [m];
        r := makeAssumption(m, ms[..i]);
        if r == -1 {
          FailingMore(ms[..i + 1], ms);
          return;
        }
      }
      assert ms[..|ms|] == ms;
      r := 0;
    }

    lemma FailingMore(held: seq<Lit>, asked: seq<Lit>)
      requires Failing(held) && held <= asked
      ensures Failing(asked)
    {
      hide Valid, Low, AllFalse, Good, Indexed, InRange, MaxHeap, AsnOk;
      assert forall m :: m in held ==> m in asked;
    }

    /** Sets up the restarts: short intervals at the start of the sequence are skipped. */
    method setRestarts()
      modifies this`luby, this`restartStopwatch
      ensures fresh(luby) && luby.Valid() && luby.calls == 3 && restartStopwatch == 2 * RESTART_FACTOR
    {
      hide After, LubyAt;
      luby := new Luby();
      LubyFirst();
      while true
        invariant fresh(luby) && luby.Valid() && luby.calls <= 2
        decreases 3 - luby.calls
      {
        var nxt := luby.Next();
        var r := nxt * RESTART_FACTOR;
        if r >= RESTART_AFTER {
          restartStopwatch := r;
          break;
        }
      }
    }

    /** What holds of every state, whatever propagation left undone. */
    ghost predicate Sane()
      reads this`F, vars, cdb, cdb.cdat, trail, trail.vars, guess, driver, driver.vars, gc, gc.luby
    {
      Valid() && Low(St())
    }

    /** Propagation is in order, or the conflict of the last call was above level 0 and
      goes away with the levels. */
    ghost predicate Usable()
      reads this`F, vars, cdb, cdb.cdat, trail, trail.vars, guess, driver, driver.vars, gc, gc.luby
    {
      Sane() && (Ready() || trail.Level > 0)
    }

    /** Solve can be called: either this, or the clause recorded by the last call is in
      conflict still. */
    ghost predicate Callable()
      reads this`F, this`x, vars, cdb, cdb.cdat, trail, trail.vars, guess, driver, driver.vars, gc, gc.luby
    {
      Sane() && (if x != 0 && cdb.Bot == 0 then Conflict(x) else Ready() || trail.Level > 0)
    }

    lemma ReadyCallable()
      requires Ready() && (x == 0 || cdb.Bot != 0)
      ensures Callable()
    {
      hide Valid, Indexed, InRange, MaxHeap;
      ReadyParts();
    }

    lemma ReadyUsable()
      requires Ready()
      ensures Usable()
    {
      hide Valid, Indexed, InRange, MaxHeap;
      ReadyParts();
    }

    /** Goes back to level 0. */
    method toZero()
      requires Usable()
      modifies trail, vars`Vals, vars`Levels, vars`Reasons
      modifies guess`pos, guess`vhp, guess`cache
      ensures Ready() && trail.Level == 0 && |vars.Reasons| == |old(vars.Reasons)|
    {
      hide Valid, Low, Settled, IsCut, AsnOk, Indexed, InRange, MaxHeap;
      LevelNat(St());
      back(0);
    }

    /** Resolves the conflict that the last call recorded, and those that follow, each at
      a lower level.  The search is lost when there is one at level 0: the clauses have no
      model, and the code goes on to derive a clause where there is none. */
    method cleanupSolve() returns (lost: bool)
      requires Callable()
      modifies this`x, this`xLit, this`failed, driver, trail, cdb`Learnts, cdb`Full, cdb`Bot, cdb.cdat
      modifies vars`Vals, vars`Levels, vars`Reasons, vars`Watches, guess, gc`stopWatch
      ensures lost ==> old(x) != 0 && old(cdb.Bot) == 0 && Refuted(F, [])
      ensures old(x) != 0 && old(cdb.Bot) == 0 && old(trail.Level) == 0 ==> lost
      ensures !lost ==> Ready() && trail.Level == 0 && x == 0 && xLit == NULL && failed == []
    {
      hide Sane, Ready, Conflict, Refuted, Indexed, InRange, MaxHeap;
      while x != 0
        invariant Callable() && cdb.Bot == old(cdb.Bot) && (x != 0 ==> old(x) != 0)
        invariant old(x) != 0 && old(cdb.Bot) == 0 && old(trail.Level) == 0 ==> x != 0 && trail.Level == 0
        decreases if x == 0 then 0 else trail.Level + 1
      {
        if cdb.Bot != 0 {
          x := 0;
          break;
        }
        LevelFrom0();
        if trail.Level == 0 {
          ConflictRefutes(x);
          return true;
        }
        resolveLast();
      }
      toZero();
      xLit := NULL;
      failed := [];
      lost := false;
    }

    /** One conflict is resolved, at a level above 0. */
    method resolveLast()
      requires Callable() && x != 0 && cdb.Bot == 0 && trail.Level > 0
      modifies this`x, driver, trail, cdb`Learnts, cdb`Full, cdb`Bot, cdb.cdat
      modifies vars`Vals, vars`Levels, vars`Reasons, vars`Watches, guess, gc`stopWatch
      ensures Callable() && cdb.Bot == 0 && trail.Level < old(trail.Level)
    {
      hide DerivedBy, Valid, Ready, Low, Conflict, Rank, Under, Indexed, InRange, MaxHeap;
      ConflictParts(x);
      ghost var P, o, target := resolve(x, 0, []);
      tickGc();
      x := propagate([], 0);
      if x == 0 {
        ReadyCallable();
      } else {
        ConflictCallable();
      }
    }

    lemma LevelFrom0()
      requires Sane()
      ensures trail.Level >= 0
    {
      hide Valid, Indexed, InRange, MaxHeap;
      LevelNat(St());
    }

    /** A conflict at level 0. */
    lemma ConflictRefutes(c: int)
      requires Sane() && Conflict(c) && trail.Level == 0
      ensures Refuted(F, [])
    {
      hide Valid, Conflict, Low, Refuted, AsnOk, ReasonsOk, Sound, AllFalse, Indexed, InRange, MaxHeap;
      ConflictParts(c);
      UnsatConflict(F, trail.A(), cdb.Live(), c, []);
    }

    lemma ConflictCallable()
      requires Valid() && x != 0 && cdb.Bot == 0 && Conflict(x)
      ensures Callable()
    {
      hide Low, Good, AllFalse, Indexed, InRange, MaxHeap, ListsOk, Layout;
    }

    // Cdb.Learn counts for the collector
    method tickGc()
      requires Ready()
      modifies gc`stopWatch
      ensures Ready()
    {
      hide Good, Settled, ListsOk, Layout, Stored, After;
      gc.Tick();
    }

    /** Nothing is decided at level 0. */
    lemma ConflictParts(c: int)
      requires Sane() && Conflict(c)
      ensures Under(trail.A(), [], 0) && AsnOk(trail.A()) && ReasonsOk(trail.A(), cdb.Live()) && Sound(F, cdb.Live())
      ensures c in cdb.Live() && AllFalse(trail.A(), cdb.Live()[c])
      ensures trail.Level == 0 ==> DecisionsIn(trail.A(), [], trail.Level)
    {
      hide Low, Good, AsnOk, ReasonsOk, Sound, AllFalse, Indexed, InRange, MaxHeap, ListsOk, Layout;
      LowParts(St());
      GoodParts(F, St());
      NothingUnder(trail.A());
    }

    /** Restart intervals grow beyond what the search can still gain in weight. */
    ghost predicate Patient(n: nat)
      reads this, luby, trail, trail.vars, vars
    {
      luby.Valid() && n == |vars.Reasons| && Waits(n, luby.calls, restartStopwatch, Rank(trail.A()))
    }

    lemma RankFits()
      requires Ready()
      ensures Rank(trail.A()) <= MaxWeight(|vars.Reasons|)
    {
      hide Valid, Good, Settled, Rank, MaxWeight, AsnOk, Indexed, InRange, MaxHeap;
      ReadyParts();
      RankBound(trail.A());
    }

    /** What holds at the head of the search loop. */
    ghost predicate Searching(n: nat)
      reads this, vars, cdb, cdb.cdat, trail, trail.vars, guess, driver, driver.vars, gc, gc.luby, luby
    {
      && Ready() && Under(trail.A(), Asked, assumptLevel) && cdb.Bot == 0
      && x == 0 && xLit == NULL && luby != gc.luby && Patient(n)
    }

    /** All variables in use are assigned and nothing is left to propagate: the check
      that each given clause has a true literal finds nothing. */
    method checkModel() returns (errs: seq<int>)
      requires Ready() && trail.Head == |trail.D| && cdb.Bot == 0
      requires forall u :: 1 <= u <= vars.Max ==> vars.Vals[2 * u] != 0
      ensures errs == []
    {
      hide Good, Settled, AsnOk, Indexed, InRange, MaxHeap, ListsOk, Layout;
      ReadyParts();
      ghost var live := cdb.Live();
      ListsMembers(cdb.cdat.Cls, cdb.Added, cdb.Learnts, cdb.rmq);
      AllAssigned(F, St());
      errs := cdb.CheckModel(live);
      forall p ensures p !in errs {
        if p in cdb.Added {
          SettledTrue(F, St(), p);
        }
      }
      NoneIn(errs);
    }

    // maybe restart
    method maybeRestart(ghost n: nat)
      requires Searching(n) && trail.Head == |trail.D|
      modifies luby, this`restartStopwatch, trail, vars`Vals, vars`Levels, vars`Reasons
      modifies guess`pos, guess`vhp, guess`cache
      ensures Searching(n) && trail.Head == |trail.D|
      ensures luby.calls == if old(restartStopwatch) <= 0 then old(luby.calls) + 1 else old(luby.calls)
      ensures old(restartStopwatch) <= 0 ==> trail.Level == assumptLevel
      ensures old(restartStopwatch) > 0 ==> trail.A() == old(trail.A())
    {
      hide Valid, Ready, AsnOk, Under, Rank, MaxWeight, LastCall, After, LubyAt, IsCut, Indexed, InRange, MaxHeap;
      RankFits();
      LastCallLate(n);
      if restartStopwatch <= 0 {
        restart(Asked);
        RankFits();
      }
    }

    /** A step of the search without conflict: restarts if it is time and decides. */
    method advance(ghost n: nat) returns (r: int)
      requires Searching(n) && trail.Head == |trail.D|
      modifies luby, this`restartStopwatch, trail, guess, gc, gc.luby, cdb, cdb.cdat
      modifies vars`Vals, vars`Levels, vars`Reasons, vars`Watches
      ensures r == 0 || r == 1
      ensures gc.Unlinks >= old(gc.Unlinks) && cdb.AddLits == if gc.Unlinks == old(gc.Unlinks) then old(cdb.AddLits) else []
      ensures r == 0 ==> Searching(n)
      ensures luby.calls == if old(restartStopwatch) <= 0 then old(luby.calls) + 1 else old(luby.calls)
      ensures r == 0 && luby.calls == old(luby.calls) ==> Rank(trail.A()) > Rank(old(trail.A()))
      ensures r == 1 ==> Ready() && Under(trail.A(), Asked, assumptLevel) && trail.Head == |trail.D| && cdb.Bot == 0
      ensures r == 1 ==> forall u :: 1 <= u <= vars.Max ==> vars.Vals[2 * u] != 0
    {
      hide Valid, Ready, Good, Settled, Chosen, AsnOk, Under, Rank, MaxWeight, LastCall, After, LubyAt, Indexed, InRange, MaxHeap;
      maybeRestart(n);
      var m := choose();
      if m == NULL {
        var errs := checkModel();
        if |errs| != 0 {
          assert false;
        }
        return 1;
      }
      maybeCompact(m, Asked);
      decide(m, Asked);
      r := 0;
    }

    /** The search proper. */
    method search() returns (r: int)
      requires Ready() && trail.Head == |trail.D| && Under(trail.A(), Asked, assumptLevel) && cdb.Bot == 0
      requires x == 0 && xLit == NULL && luby.Valid() && luby.calls <= 3 && luby != gc.luby
      modifies luby, this`restartStopwatch, this`x, driver, trail, guess, gc, gc.luby, cdb, cdb.cdat
      modifies vars`Vals, vars`Levels, vars`Reasons, vars`Watches
      ensures r == 1 || r == -1
      ensures gc.Unlinks >= old(gc.Unlinks) && cdb.AddLits == if gc.Unlinks == old(gc.Unlinks) then old(cdb.AddLits) else []
      ensures r == 1 ==> Ready() && Under(trail.A(), Asked, assumptLevel) && trail.Head == |trail.D|
      ensures r == 1 ==> cdb.Bot == 0 && x == 0 && forall u :: 1 <= u <= vars.Max ==> vars.Vals[2 * u] != 0
      ensures r == -1 ==> Failing(Asked) && Callable()
    {
      hide DerivedBy, Valid, Ready, Conflict, Callable, Failing, AsnOk, Under, Rank, MaxWeight, LastCall, After, LubyAt, Indexed, InRange, MaxHeap;
      ghost var n := |vars.Reasons|;
      LastCallLate(n);
      while true
        invariant Searching(n)
        invariant gc.Unlinks >= old(gc.Unlinks) && cdb.AddLits == if gc.Unlinks == old(gc.Unlinks) then old(cdb.AddLits) else []
        decreases LastCall(n) - luby.calls, MaxWeight(n) - Rank(trail.A())
      {
        RankFits();
        ghost var w := Rank(trail.A());
        var c := propagate(Asked, assumptLevel);
        if c != 0 {
          if trail.Level <= assumptLevel {
            UnderLevel(trail.A(), Asked, assumptLevel);
            x := c;
            FailsNow(Asked, Asked);
            return -1;
          }
          ghost var P, o, target := learn(c, Asked);
          RankFits();
        } else {
          r := advance(n);
          if r == 1 {
            return;
          }
          RankFits();
        }
      }
    }

    /** Prepares the search: cleans up, makes the assumptions. */
    method solveInit() returns (r: int, lost: bool)
      requires Callable()
      requires forall m :: m in assumes ==> 2 <= m <= 2 * vars.Max + 1
      modifies this`luby, this`restartStopwatch, this`x, this`xLit, this`failed, this`assumptLevel, this`assumes, this`Asked
      modifies driver, trail, cdb`Learnts, cdb`Full, cdb`Bot, cdb.cdat
      modifies vars`Vals, vars`Levels, vars`Reasons, vars`Watches, guess, gc`stopWatch
      ensures Asked == old(assumes) && assumes == [] && (r == 0 || r == -1)
      ensures lost ==> old(x) != 0 && old(cdb.Bot) == 0 && Refuted(F, [])
      ensures old(x) != 0 && old(cdb.Bot) == 0 && old(trail.Level) == 0 ==> lost
      ensures !lost && r == 0 ==> Ready() && trail.Head == |trail.D| && Under(trail.A(), Asked, assumptLevel) && cdb.Bot == 0
      ensures !lost && r == 0 ==> x == 0 && xLit == NULL && fresh(luby) && luby.Valid() && luby.calls <= 3
      ensures !lost && r == -1 ==> Failing(Asked) && Callable()
    {
      hide Ready, Failing, Callable, Refuted, AsnOk, Under, DecisionsIn, AllFalse, FalseNow, After, LubyAt, Indexed, InRange, MaxHeap;
      setRestarts();
      lost := cleanupSolve();
      if lost {
        Asked, assumes := assumes, [];
        return 0, true;
      }
      r := makeAssumptions();
      if r == -1 {
        return;
      }
      setPhases();
    }

    method setPhases()
      requires Ready()
      modifies guess`cache
      ensures Ready()
    {
      hide Good, Settled, MaxHeap, Indexed, InRange;
      guess.setPhases();
    }

    /** Decides whether the clauses added and the assumptions have a model.  After the
      answer 1 the values are such a model; after -1 there is none.  When the search is
      lost, which takes clauses without a model and a call after the answer -1, the
      result is left open. */
    method Solve() returns (r: int, lost: bool)
      requires Callable()
      requires forall m :: m in assumes ==> 2 <= m <= 2 * vars.Max + 1
      modifies this`luby, this`restartStopwatch, this`x, this`xLit, this`failed, this`assumptLevel, this`assumes, this`Asked
      modifies driver, trail, guess, gc, gc.luby, cdb, cdb.cdat
      modifies vars`Vals, vars`Levels, vars`Reasons, vars`Watches
      ensures lost ==> old(x) != 0 && old(cdb.Bot) == 0 && Refuted(F, [])
      ensures old(x) != 0 && old(cdb.Bot) == 0 && old(trail.Level) == 0 ==> lost
      ensures !lost ==> (r == 1 || r == -1) && (r == 1 <==> Satisfiable(F, old(assumes))) && Callable()
      ensures !lost && r == 1 ==> Models(ValOf(vars.Vals), F) && AllHold(ValOf(vars.Vals), old(assumes))
      ensures !lost && r == 1 ==> 0 <= 2 * vars.Max + 1 < |vars.Vals| && forall m :: 2 <= m <= 2 * vars.Max + 1 ==> (Value(m) <==> Holds(ValOf(vars.Vals), m))
      ensures !lost && r == 1 ==> Ready() && x == 0 && xLit == NULL && forall u :: 1 <= u <= vars.Max ==> vars.Vals[2 * u] != 0
      ensures !lost && r == -1 ==> Refuted(F, old(assumes)) && Failing(old(assumes)) && (x != 0 || xLit != NULL)
      ensures Asked == old(assumes) && assumes == [] && assumptLevel == 0
      ensures gc.Unlinks >= old(gc.Unlinks) && cdb.AddLits == if gc.Unlinks == old(gc.Unlinks) then old(cdb.AddLits) else []
    {
      hide Ready, Failing, Callable, AsnOk, Under, DecisionsIn, AllFalse, FalseNow, After, LubyAt, Refuted, Models, AllHold, ValOf, Indexed, InRange, MaxHeap;
      r, lost := solveInit();
      if lost {
        assumptLevel := 0;
        return;
      }
      if r == 0 {
        r := search();
      }
      if r == -1 {
        FailingRefutes(Asked);
        RefutedUnsat(F, Asked);
      } else {
        ReadyCallable();
        ModelHere();
        ValueReads();
        ModelSat(F, Asked, ValOf(vars.Vals));
      }
      assumptLevel := 0;
    }

    /** All variables in use are assigned: the values are a model. */
    lemma ModelHere()
      requires Ready() && trail.Head == |trail.D| && cdb.Bot == 0 && Under(trail.A(), Asked, assumptLevel)
      requires forall u :: 1 <= u <= vars.Max ==> vars.Vals[2 * u] != 0
      ensures Models(ValOf(vars.Vals), F) && AllHold(ValOf(vars.Vals), Asked)
    {
      hide Good, Settled, AsnOk, Under, Models, AllHold, ValOf, Indexed, InRange, MaxHeap, ListsOk, Layout;
      ReadyParts();
      GoodParts(F, St());
      AllAssigned(F, St());
      SettledModel(F, St());
      UnderModel(trail.A(), Asked, assumptLevel);
    }

    // ---- adding ----

    /** Makes room for variables up to u: every list gets longer. */
    method enlarge(u: int)
      requires Shape() && Sizes(trail.A()) && |vars.Watches| == |vars.Vals| && |vars.Reasons| <= |guess.pos| && u >= 2 * vars.Top
      modifies vars, cdb`AddVals, trail`Pos, guess, driver`Lvls, driver`Seen, driver`Rdnt
      ensures Shape() && vars.Top == u && vars.Max == old(vars.Max)
      ensures var s := old(St());
        && St() == s.(a := Grown(s.a, u + 1), ws := Pad(s.ws, 2 * (u + 1), []), seen := Pad(s.seen, u + 1, false), pos := guess.pos)
        && |s.pos| <= |guess.pos| == u + 1 && forall v :: 0 <= v <= u ==> (guess.pos[v] != -1 <==> v >= |s.pos| || s.pos[v] != -1)
    {
      hide ListsOk, Layout, Stored, AllStored, Indexed, InRange, MaxHeap, After, Pad;
      PadZeros(cdb.AddVals, u + 1);
      PadZeros(driver.Rdnt, u + 1);
      vars.growToVar(u);
      cdb.growToVar(u);
      trail.growToVar(u);
      guess.growToVar(u);
      driver.growToVar(u);
    }

    /** The same with all that holds of the state. */
    method grow(u: int)
      requires Sane() && u >= 2 * vars.Top
      modifies vars, cdb`AddVals, trail`Pos, guess, driver`Lvls, driver`Seen, driver`Rdnt
      ensures Sane() && (old(Ready()) ==> Ready()) && trail.Level == old(trail.Level) && forall c :: old(Conflict(c)) ==> Conflict(c)
      ensures vars.Top == u && vars.Max == old(vars.Max)
    {
      hide Good, Low, Settled, AsnOk, ListsOk, Layout, Stored, AllStored, Indexed, InRange, MaxHeap, After, Pad;
      ghost var s, ready := St(), Ready();
      RoomFacts();
      enlarge(u);
      GrownState(F, s, St(), u + 1, trail.Head, ready);
      forall c | old(Conflict(c)) ensures Conflict(c) {
        GrownClash(s, u + 1, c);
        ClashPos(s.(a := Grown(s.a, u + 1), ws := Pad(s.ws, 2 * (u + 1), [])), St(), c);
      }
    }

    /** Puts the variables up to mVar into use. */
    method enter(mVar: int)
      requires Sane() && vars.Max < mVar < vars.Top
      modifies vars`Max, guess`pos, guess`vhp, guess`cache
      ensures Sane() && (old(Ready()) ==> Ready()) && vars.Max == mVar && forall c :: old(Conflict(c)) ==> Conflict(c)
    {
      hide Good, Low, Settled, AsnOk, ListsOk, Layout, Stored, Indexed, InRange, MaxHeap, After;
      ghost var s, ready := St(), Ready();
      MaxNat(F, s);
      RoomFacts();
      for i := vars.Max + 1 to mVar + 1
        invariant guess.Valid() && |guess.pos| == |s.pos| && vars.Max == s.max
        invariant forall u :: 0 <= u < |s.pos| ==> (guess.pos[u] != -1 <==> s.pos[u] != -1 || vars.Max < u < i)
      {
        ghost var g := guess.pos;
        assert forall u :: 0 <= u < |g| ==> (guess.Has(u) <==> g[u] != -1);
        guess.Push(2 * i);
        assert forall u :: 0 <= u < |g| ==> (guess.Has(u) <==> guess.pos[u] != -1);
      }
      vars.Max := mVar;
      EnterState(F, s, St(), trail.Head, ready);
      forall c | old(Conflict(c)) ensures Conflict(c) { ClashPos(s, St(), c); }
    }

    /** Makes room for the variable of m and puts it into use. */
    method ensureLitCap(m: Lit)
      requires Sane() && m >= 0
      modifies vars, cdb`AddVals, trail`Pos, guess, driver`Lvls, driver`Seen, driver`Rdnt
      ensures Sane() && (old(Ready()) ==> Ready()) && trail.Level == old(trail.Level) && forall c :: old(Conflict(c)) ==> Conflict(c)
      ensures vars.Max == if Var(m) > old(vars.Max) then Var(m) else old(vars.Max)
    {
      hide Valid, Good, Low, Settled, Conflict, Indexed, InRange, MaxHeap;
      TopPos();
      var mVar := Var(m);
      var top := vars.Top;
      if mVar >= top {
        while top <= mVar
          invariant top >= vars.Top && (top == vars.Top || top >= 2 * vars.Top)
          decreases mVar - top
        {
          top := 2 * top;
        }
        grow(top);
      }
      if mVar > vars.Max {
        enter(mVar);
      }
    }

    lemma TopPos()
      requires Valid()
      ensures 0 <= vars.Max < vars.Top
    {
    }

    /** Ends what the last call of Solve left: back to level 0. */
    method ensure0()
      requires Usable()
      modifies this`x, this`xLit, this`failed, trail, vars`Vals, vars`Levels, vars`Reasons
      modifies guess`pos, guess`vhp, guess`cache
      ensures Ready() && trail.Level == 0 && x == 0 && xLit == NULL && failed == []
    {
      hide Valid, Low, Settled, Indexed, InRange, MaxHeap;
      if trail.Level != 0 {
        toZero();
      }
      x := 0;
      xLit := NULL;
      failed := [];
    }

    /** Adds the literal m to the clause being added or, when m is null, completes the
      clause: from then on it is one of F. */
    method Add(m: Lit)
      requires if m == NULL then Usable() else m >= 2 && Callable()
      modifies this`F, this`x, this`xLit, this`failed, vars, trail, guess, driver`Lvls, driver`Seen, driver`Rdnt
      modifies cdb, cdb.cdat
      ensures Callable() && (m == NULL ==> Ready() && x == 0 && xLit == NULL)
      ensures m != NULL ==> x == old(x) && xLit == old(xLit) && (old(Usable()) ==> Usable())
      ensures cdb.AddLits == if m == NULL then [] else old(cdb.AddLits) + [m]
      ensures F == if m == NULL then old(F) + {old(cdb.AddLits)} else old(F)
      ensures vars.Max == if Var(m) > old(vars.Max) then Var(m) else old(vars.Max)
    {
      hide Valid, Ready, Good, Low, Settled, Conflict, Indexed, InRange, MaxHeap;
      ensureLitCap(m);
      if m == NULL {
        ensure0();
        complete();
        ReadyCallable();
      } else {
        addLit(m);
      }
    }

    method addLit(m: Lit)
      requires Callable() && 2 <= m && Var(m) <= vars.Max
      modifies cdb, cdb.cdat, vars`Watches
      ensures Callable() && (old(Usable()) ==> Usable()) && cdb.AddLits == old(cdb.AddLits) + [m]
    {
      hide Good, Low, Settled, ListsOk, Layout, Stored, Indexed, InRange, MaxHeap, After;
      RoomFacts();
      ghost var s := St();
      var loc, u := cdb.Add(m);
    }

    lemma LitsFit()
      requires Ready()
      ensures forall k :: k in cdb.AddLits ==> 2 <= k < |vars.Vals| && 0 <= Var(k) < |cdb.AddVals| && -1 <= vars.Vals[k] <= 1
    {
    }

    /** Stores the completed clause unless it is satisfied, and assigns its literal if
      only one is left. */
    method complete()
      requires Ready() && trail.Level == 0 && x == 0 && xLit == NULL
      modifies this`F, cdb, cdb.cdat, trail, vars`Vals, vars`Levels, vars`Reasons, vars`Watches
      ensures Ready() && cdb.AddLits == [] && F == old(F) + {old(cdb.AddLits)}
    {
      hide Good, Settled, AsnOk, ListsOk, Layout, Stored, Simplified, Dropped, ClauseOk, WithWatches, Assigned, Indexed, InRange, MaxHeap, After;
      ghost var s, ms := St(), cdb.AddLits;
      ReadyParts();
      LitsFit();
      ReadyUsable();
      RoomFacts();
      var loc, u := cdb.Add(NULL);
      F := F + {ms};
      if loc == CINF {
        DropState(old(F), s, ms);
        assert St() == s;
        return;
      }
      ghost var kept := cdb.Live()[loc];
      assert cdb.AddedSet() == s.added + {loc};
      AddState(old(F), s, St(), trail.Head, ms, loc, kept);
      if u != NULL {
        assign(u, loc);
      }
    }

    /** Assumes the literals for the next call of Solve. */
    method Assume(ms: seq<Lit>)
      requires Callable() && forall m :: m in ms ==> m >= 2
      requires forall m :: m in assumes ==> 2 <= m <= 2 * vars.Max + 1
      modifies this`assumes, vars, cdb`AddVals, trail`Pos, guess, driver`Lvls, driver`Seen, driver`Rdnt
      ensures Callable() && (old(Ready()) ==> Ready()) && trail.Level == old(trail.Level) && assumes == old(assumes) + ms && vars.Max >= old(vars.Max)
      ensures forall m :: m in assumes ==> 2 <= m <= 2 * vars.Max + 1
    {
      hide Sane, Ready, Conflict, Indexed, InRange, MaxHeap;
      assumes := assumes + ms;
      for i := 0 to |ms|
        invariant Callable() && (old(Ready()) ==> Ready()) && trail.Level == old(trail.Level)
        invariant vars.Max >= old(vars.Max) && assumes == old(assumes) + ms
        invariant forall m :: m in ms[..i] ==> m <= 2 * vars.Max + 1
      {
        assert ms[i] in ms;
        assert ms[..i + 1] == ms[..i] + [ms[i]];
        ensureLitCap(ms[i]);
      }
      assert ms[..|ms|] == ms;
    }

    // the positive literal of a new variable
    method Lit() returns (m: Lit)
      requires Callable()
      modifies vars, cdb`AddVals, trail`Pos, guess, driver`Lvls, driver`Seen, driver`Rdnt
      ensures Callable() && (old(Ready()) ==> Ready()) && m == 2 * (old(vars.Max) + 1) && vars.Max == old(vars.Max) + 1
    {
      hide Valid, Ready, Good, Low, Settled, Conflict, Indexed, InRange, MaxHeap;
      MaxFits();
      m := 2 * (vars.Max + 1);
      ensureLitCap(m);
    }

    lemma MaxFits()
      requires Sane()
      ensures vars.Max >= 0
    {
    }

    predicate Value(m: Lit)
      reads vars
      requires 0 <= m < |vars.Vals|
    {
      vars.Vals[m] == 1
    }

    /** When all variables in use are assigned, Value reads the valuation of the values. */
    lemma ValueReads()
      requires Ready() && forall u :: 1 <= u <= vars.Max ==> vars.Vals[2 * u] != 0
      ensures 0 <= 2 * vars.Max + 1 < |vars.Vals|
      ensures forall m :: 2 <= m <= 2 * vars.Max + 1 ==> (Value(m) <==> Holds(ValOf(vars.Vals), m))
    {
      hide Good, Settled, AsnOk, ListsOk, Layout, Indexed, InRange, MaxHeap;
      ReadyParts();
      MaxNat(F, St());
      forall m | 2 <= m <= 2 * vars.Max + 1 ensures Value(m) <==> Holds(ValOf(vars.Vals), m) {
        InUse(F, St(), m);
        FlipVals(trail.A(), m);
        HoldsNot(ValOf(vars.Vals), m);
        ValHolds(trail.A(), m);
        ValHolds(trail.A(), Not(m));
        assert vars.Vals[2 * Var(m)] != 0;
      }
    }

    // ---- failed assumptions ----

    /** What the search for failed assumptions relies on. */
    ghost predicate Traceable()
      reads vars, cdb, cdb.cdat, trail, trail.vars
    {
      && vars == trail.vars && AsnOk(trail.A()) && Sizes(trail.A()) && ReasonsOk(trail.A(), cdb.Live()) && InMax(cdb.Live(), vars.Max)
      && forall p :: p in cdb.Live() ==> Stored(cdb.cdat.D, p, cdb.Live()[p])
    }

    /** A false literal whose variable has a mark. */
    ghost predicate FalseLit(m: Lit)
      reads vars
    {
      2 <= m < |vars.Vals| && vars.Vals[m] == -1 && m <= 2 * vars.Max + 1
    }

    /** The decisions found since place base explain all marked variables not in open;
      all of them are led to from roots. */
    ghost predicate Tracing(marks: seq<bool>, base: nat, open: set<int>, roots: seq<Lit>)
      reads this`failed, vars, cdb, cdb.cdat, trail, trail.vars
    {
      && Traceable() && |marks| == vars.Max + 1 && base <= |failed|
      && Closed(trail.A(), cdb.Live(), marks, failed[base..], open) && Tidy(trail.A(), cdb.Live(), roots, marks, failed[base..])
    }

    lemma TraceParts()
      requires Traceable()
      ensures AsnOk(trail.A()) && Sizes(trail.A()) && trail.A().vals == vars.Vals
    {
    }

    /** Collects in failed the decisions that the false literal m follows from. */
    method finalRec(m: Lit, marks0: seq<bool>, ghost base: nat, ghost open: set<int>, ghost roots: seq<Lit>) returns (marks: seq<bool>)
      requires Tracing(marks0, base, open, roots) && FalseLit(m) && LedTo(trail.A(), cdb.Live(), roots, Var(m))
      modifies this`failed
      ensures Tracing(marks, base, open, roots) && MarksMore(marks0, marks) && 0 <= Var(m) < |marks| && marks[Var(m)]
      ensures Found(trail.A(), old(failed), failed)
      decreases trail.Pos[Var(m)], 1
    {
      hide AsnOk, ReasonsOk, Closed, Tidy, LedTo, Stored, InMax;
      ghost var a, cls := trail.A(), cdb.Live();
      marks := marks0;
      FoundNone(a, failed);
      MarksSame(marks);
      if marks[Var(m)] {
        return;
      }
      ghost var v := Var(m);
      MarkOpen(a, cls, marks, failed[base..], open, v);
      TidyMark(a, cls, roots, marks, failed[base..], v);
      ghost var ms := marks;
      marks := marks[Var(m) := true];
      var p := vars.Reasons[Var(m)];
      if p == 0 {
        ghost var f0 := failed[base..];
        FalseDecided(a, m);
        TidyFound(a, cls, roots, ms, f0, m);
        failed := failed + [Not(m)];
        assert failed[base..] == f0 + [Not(m)];
        CloseMark(a, cls, marks, f0, failed[base..], open, m);
        return;
      }
      ReasonOf(a, cls, m);
      ghost var c := cls[p];
      BoundsOf(cls, vars.Max, p);
      assert Stored(cdb.cdat.D, p, c);
      LedOn(a, cls, roots, m);
      marks := finalRest(p, c, m, marks, base, open + {v}, roots);
      assert Explained(a, cls, marks, failed[base..], m);
      CloseMark(a, cls, marks, failed[base..], failed[base..], open, m);
    }

    /** The other literals of the reason p of m. */
    method finalRest(p: int, ghost c: seq<Lit>, ghost m: Lit, marks0: seq<bool>, ghost base: nat, ghost open: set<int>, ghost roots: seq<Lit>)
      returns (marks: seq<bool>)
      requires Tracing(marks0, base, open, roots) && LitOk(trail.A(), m)
      requires Stored(cdb.cdat.D, p, c) && BeforeAll(trail.A(), c, m) && InBound(c, 2 * vars.Max + 1) && 0 <= trail.Pos[Var(m)]
      requires forall i :: 1 <= i < |c| ==> LedTo(trail.A(), cdb.Live(), roots, Var(c[i]))
      modifies this`failed
      ensures Tracing(marks, base, open, roots) && MarksMore(marks0, marks) && RestMarked(marks, c)
      ensures Found(trail.A(), old(failed), failed)
      decreases trail.Pos[Var(m)], 0
    {
      hide AsnOk, ReasonsOk, Closed, Tidy, LedTo, Stored, InMax, Found, MarksMore;
      ghost var a := trail.A();
      marks := marks0;
      FoundNone(a, failed);
      MarksSame(marks);
      StoredEnd(cdb.cdat.D, p, c);
      var r := p + 1;
      while cdb.cdat.D[r] != NULL
        invariant 1 <= r - p <= |c| && 0 <= r < |cdb.cdat.D| && cdb.cdat.D[r] == if r == p + |c| then NULL else c[r - p]
        invariant Tracing(marks, base, open, roots) && MarksMore(marks0, marks)
        invariant forall i :: 1 <= i < r - p ==> 0 <= Var(c[i]) < |marks| && marks[Var(c[i])]
        invariant Found(a, old(failed), failed)
        decreases p + |c| - r
      {
        ghost var f, ms := failed, marks;
        assert c[r - p] in c;
        marks := finalRec(cdb.cdat.D[r], marks, base, open, roots);
        FoundTrans(a, old(failed), f, failed);
        MarksTrans(marks0, ms, marks);
        MarksStay(ms, marks);
        StoredNext(cdb.cdat.D, p, c, r - p);
        r := r + 1;
      }
    }

    method final(ms: seq<Lit>, ghost base: nat) returns (ghost marks: seq<bool>)
      requires Traceable() && base == |failed| && 0 <= vars.Max && forall k :: 0 <= k < |ms| ==> FalseLit(ms[k])
      modifies this`failed
      ensures Tracing(marks, base, {}, ms) && Found(trail.A(), old(failed), failed)
      ensures forall k :: 0 <= k < |ms| ==> 0 <= Var(ms[k]) < |marks| && marks[Var(ms[k])]
    {
      hide Traceable, Closed, Tidy, LedTo, Found, MarksMore, AsnOk, ReasonsOk, Stored, InMax;
      ghost var a := trail.A();
      TraceSizes();
      var seen := seq(vars.Max + 1, _ => false);
      ClosedNone(a, cdb.Live(), seen, failed[base..]);
      TidyNone(a, cdb.Live(), ms, seen);
      assert failed[base..] == [];
      FoundNone(a, failed);
      for i := 0 to |ms|
        invariant Tracing(seen, base, {}, ms) && Found(a, old(failed), failed)
        invariant forall k :: 0 <= k < i ==> 0 <= Var(ms[k]) < |seen| && seen[Var(ms[k])]
      {
        ghost var f, s := failed, seen;
        TraceParts();
        LedRoot(a, cdb.Live(), ms, ms[i]);
        seen := finalRec(ms[i], seen, base, {}, ms);
        FoundTrans(a, old(failed), f, failed);
        MarksStay(s, seen);
      }
      marks := seen;
    }

    lemma TraceSizes()
      requires Traceable()
      ensures Sizes(trail.A()) && vars == trail.vars
    {
    }

    /** The decisions behind the false assumption. */
    method whyLit(ghost ms: seq<Lit>)
      requires Failing(Asked) && xLit != NULL && failed == ms + [xLit]
      modifies this`failed
      ensures ms + [xLit] <= failed && (forall m :: m in failed[|ms|..] ==> m in Asked) && Refuted(F, failed[|ms|..])
      ensures Sizes(trail.A()) && CoreIs(trail.A(), cdb.Live(), [xLit], failed[|ms| + 1..])
    {
      hide AsnOk, ReasonsOk, Closed, Tidy, CoreIs, Stored, InMax, Found, Valid, Low, Good, DecisionsIn, Refuted, Models, AllHold, Sat, Indexed, InRange, MaxHeap, Traceable;
      FailTrace();
      ghost var f := failed;
      var c := [xLit];
      ghost var marks := final(c, |f|);
      ghost var found := failed[|f|..];
      FoundAsked(trail.A(), f, failed, Asked);
      assert failed[|ms|..] == [xLit] + found;
      CoreExact(trail.A(), cdb.Live(), c, marks, found);
      ClosedMore(trail.A(), cdb.Live(), marks, found, failed[|ms|..]);
      OneFalse(xLit, failed[|ms|..]);
      CoreRefutes(F, trail.A(), cdb.Live(), marks, failed[|ms|..], c);
    }

    /** The decisions behind the conflict. */
    method whyConflict(ghost ms: seq<Lit>)
      requires Failing(Asked) && xLit == NULL && failed == ms
      modifies this`failed
      ensures ms <= failed && (forall m :: m in failed[|ms|..] ==> m in Asked) && Refuted(F, failed[|ms|..])
      ensures x in cdb.Live() && Sizes(trail.A()) && CoreIs(trail.A(), cdb.Live(), cdb.Live()[x], failed[|ms|..])
    {
      hide AsnOk, ReasonsOk, Closed, Tidy, CoreIs, Stored, InMax, Found, Valid, Low, Good, DecisionsIn, Refuted, Models, AllHold, Sat, Indexed, InRange, MaxHeap, Traceable;
      FailTrace();
      ghost var c := cdb.Live()[x];
      var cs := cdb.Lits(x, [], c);
      assert cs == c;
      ConflictHolds(cdb.Live(), x);
      ghost var marks := final(cs, |ms|);
      FoundAsked(trail.A(), ms, failed, Asked);
      CoreExact(trail.A(), cdb.Live(), c, marks, failed[|ms|..]);
      CoreRefutes(F, trail.A(), cdb.Live(), marks, failed[|ms|..], c);
    }

    /** Appends to ms assumptions of the last call of Solve that cannot all hold, if it
      found no model. */
    method Why(ms: seq<Lit>) returns (res: seq<Lit>)
      requires (x == 0 && xLit == NULL) || Failing(Asked)
      modifies this`failed
      ensures x == 0 && xLit == NULL ==> res == ms
      ensures ms <= res && forall m :: m in res[|ms|..] ==> m in Asked
      ensures x != 0 || xLit != NULL ==> Refuted(F, res[|ms|..])
      ensures xLit != NULL ==> ms + [xLit] <= res && Sizes(trail.A()) && CoreIs(trail.A(), cdb.Live(), [xLit], res[|ms| + 1..])
      ensures x != 0 && xLit == NULL ==>
        x in cdb.Live() && Sizes(trail.A()) && CoreIs(trail.A(), cdb.Live(), cdb.Live()[x], res[|ms|..])
    {
      hide Failing, CoreIs, Refuted, Valid, Low, Good;
      failed := ms;
      if xLit != NULL {
        failed := failed + [xLit];
        whyLit(ms);
      } else if x != 0 {
        whyConflict(ms);
      } else {
        return ms;
      }
      res := failed;
    }

    /** What a failed call leaves behind. */
    lemma FailTrace()
      requires Failing(Asked)
      ensures Traceable() && vars == trail.vars && 0 <= vars.Max && AsnOk(trail.A()) && Sizes(trail.A()) && DecisionsIn(trail.A(), Asked, trail.Level)
      ensures ReasonsOk(trail.A(), cdb.Live()) && Sound(F, cdb.Live())
      ensures xLit != NULL ==> xLit in Asked && FalseLit(xLit)
      ensures xLit == NULL ==> x in cdb.Live() && Stored(cdb.cdat.D, x, cdb.Live()[x])
      ensures xLit == NULL ==> forall k :: 0 <= k < |cdb.Live()[x]| ==> FalseLit(cdb.Live()[x][k])
    {
      hide AsnOk, ReasonsOk, Sound, DecisionsIn, Low, Good, Indexed, InRange, MaxHeap, ListsOk, Layout, InMax, Stored;
      LowParts(St());
      GoodParts(F, St());
      GoodAll(F, St());
      assert Traceable();
      if xLit == NULL {
        BoundsOf(cdb.Live(), vars.Max, x);
        ghost var c := cdb.Live()[x];
        assert forall k :: 0 <= k < |c| ==> c[k] in c;
      }
    }
  }

  lemma ConflictNow(s: State, c: int)
    requires Low(s) && c in s.cls && exists m :: m in s.cls[c] && FalseNow(s.a, m)
    ensures Sizes(s.a) && SomeNow(s.a, s.cls[c])
  {
  }

  lemma BoundMax(f: set<seq<Lit>>, s: State)
    requires Good(f, s)
    ensures AllBound(s.cls, 2 * s.max + 1)
  {
  }

  lemma SeenFit(a: Asn, seen: seq<bool>)
    requires Sizes(a) && |seen| == |a.reasons| && SeenOk(a, seen, [], [])
    ensures SeenFits(a, seen)
  {
  }

  lemma BackHeap(f: set<seq<Lit>>, s: State, pos: seq<int>)
    requires Good(f, s) && pos == s.pos
    ensures Sizes(s.a) && HeapOk(s.a.vals, pos, s.max) && |s.a.reasons| <= |pos|
    ensures forall u :: 0 <= u < |pos| && pos[u] != -1 ==> 1 <= u && 2 * u + 1 < |s.a.vals|
  {
  }

  lemma TrailVars(a: Asn)
    requires AsnOk(a)
    ensures Sizes(a) && forall j :: 0 <= j < |a.trail| ==> 1 <= Var(a.trail[j]) < |a.reasons|
  {
  }

  lemma UnderLevel(a: Asn, asked: seq<Lit>, l: int)
    requires Under(a, asked, l)
    ensures 0 <= l <= a.level
  {
  }

  lemma LearntTarget(a: Asn, c: seq<Lit>, target: int)
    requires Sizes(a) && LearntOk(a, c, target)
    ensures 0 <= target < a.level
  {
  }

  /** The jump back and the assignment of the literal forced there. */
  lemma JumpStep(a: Asn, b: Asn, k: int, tgt: int, cls: Cls, p: int, c: seq<Lit>, target: int, asked: seq<Lit>, l: int)
    requires AsnOk(a) && AsnOk(b) && IsCut(a, b, k, tgt) && Sizes(a) && LearntOk(a, c, target) && target <= tgt < a.level
    requires p in cls && cls[p] == c && |c| >= 1 && p != 0 && Under(a, asked, l) && l <= tgt
    ensures CanAssign(b, cls, c[0], p) && Under(b, asked, l)
    ensures Sizes(b) && LitOk(b, c[0]) && Rank(Assigned(b, c[0], p)) > Rank(a)
  {
    hide AsnOk, IsCut, LearntOk, Under, Rank, CanAssign;
    AsnSizes(b);
    UnderLevel(a, asked, l);
    JumpUnit(a, b, k, tgt, cls, p, c, target);
    CanAssignParts(b, cls, c[0], p);
    CutUnder(a, b, k, tgt, asked, l);
    RankJump(a, b, k, tgt, c[0], p);
  }

  lemma CanAssignParts(a: Asn, cls: Cls, m: Lit, c: int)
    requires CanAssign(a, cls, m, c)
    ensures LitOk(a, m) && a.vals[m] == 0
  {
  }

  /** A literal of a variable in use. */
  lemma InUse(f: set<seq<Lit>>, s: State, m: Lit)
    requires Good(f, s) && AsnOk(s.a) && 2 <= m <= 2 * s.max + 1
    ensures LitOk(s.a, m) && -1 <= s.a.vals[m] <= 1
  {
  }

  lemma UnderDecisions(a: Asn, asked: seq<Lit>, l: int)
    requires Under(a, asked, l)
    ensures Sizes(a) && DecisionsIn(a, asked, l)
  {
  }

  lemma DecisionsAll(a: Asn, held: seq<Lit>, asked: seq<Lit>, l: int)
    requires Sizes(a) && DecisionsIn(a, held, l) && forall m :: m in held ==> m in asked
    ensures DecisionsIn(a, asked, l)
  {
    forall k | 0 <= k < |a.trail| && a.why[k] == 0 && a.lv[k] <= l ensures a.trail[k] in asked {
      var m := a.trail[k];
      assert m in held;
    }
  }

  lemma NothingUnder(a: Asn)
    requires AsnOk(a)
    ensures Under(a, [], 0)
  {
  }

  /** An empty clause is false. */
  lemma BotFalse(f: set<seq<Lit>>, s: State)
    requires Good(f, s) && s.bot != 0
    ensures s.bot in s.cls && AllFalse(s.a, s.cls[s.bot])
  {
  }

  /** The call of Luby.Next after which no restart is needed. */
  ghost function LastCall(n: nat): nat {
    Pow2(MaxWeight(n) + 3) - 1
  }

  /** After the last call so many conflicts are to come that the weight would pass its bound. */
  ghost predicate Waits(n: nat, calls: nat, watch: int, rank: nat) {
    calls <= LastCall(n) && (calls == LastCall(n) ==> watch + rank > MaxWeight(n))
  }

  lemma LastCallLate(n: nat)
    ensures LastCall(n) > 3 && LubyAt(LastCall(n)) * RESTART_FACTOR > MaxWeight(n)
  {
    var w := MaxWeight(n);
    LubyPeak(w + 3);
    PowGrows(w + 2);
    hide LubyAt, MaxWeight;
    assert Pow2(w + 3) == 2 * Pow2(w + 2);
  }

  lemma LevelNat(s: State)
    requires Low(s)
    ensures 0 <= s.a.level
  {
  }

  /** Every literal of a stored clause is assigned. */
  lemma AllAssigned(f: set<seq<Lit>>, s: State)
    requires Good(f, s) && AsnOk(s.a) && Core(s.a, s.cls)
    requires forall u :: 1 <= u <= s.max ==> 2 * u < |s.a.vals| && s.a.vals[2 * u] != 0
    ensures forall p, m {:trigger m in s.cls[p]} :: p in s.cls && m in s.cls[p] ==> LitOk(s.a, m) && s.a.vals[m] != 0
    ensures forall p, i {:trigger s.cls[p][i]} :: p in s.cls && 0 <= i < |s.cls[p]| ==> 0 <= s.cls[p][i] < |s.a.vals|
  {
    hide Faithful, SeenFits, AsnOk;
    forall p, m | p in s.cls && m in s.cls[p] ensures LitOk(s.a, m) && s.a.vals[m] != 0 {
      var i :| 0 <= i < |s.cls[p]| && s.cls[p][i] == m;
      assert InBound(s.cls[p], 2 * s.max + 1);
      FlipVals(s.a, 2 * Var(m));
    }
  }

  lemma GrownState(f: set<seq<Lit>>, s: State, s': State, w: int, h: int, ready: bool)
    requires Good(f, s) && Low(s) && (ready ==> Settled(s, h)) && Sizes(s.a) && w >= |s.a.reasons| && |s.ws| <= 2 * w
    requires s'.a.vals == Pad(s.a.vals, 2 * w, 0) && s'.a.levels == Pad(s.a.levels, w, 0)
    requires s'.a.reasons == Pad(s.a.reasons, w, 0) && s'.a.pos == Pad(s.a.pos, w, 0)
    requires s'.a == s.a.(vals := s'.a.vals, levels := s'.a.levels, reasons := s'.a.reasons, pos := s'.a.pos)
    requires s' == s.(a := s'.a, ws := Pad(s.ws, 2 * w, []), seen := Pad(s.seen, w, false), pos := s'.pos)
    requires |s.pos| <= |s'.pos| == w && forall u :: 0 <= u < w ==> (s'.pos[u] != -1 <==> u >= |s.pos| || s.pos[u] != -1)
    ensures Good(f, s') && Low(s') && (ready ==> Settled(s', h))
  {
    hide Good, Low, Settled, Pad;
    GrownGood(f, s, s', w);
    GrownLow(s, w);
    LowPos(s.(a := s'.a, ws := s'.ws), s');
    if ready {
      GrownSettled(s, h, w);
      SettledPos(s.(a := s'.a, ws := s'.ws), s', h);
    }
  }

  lemma DropState(f: set<seq<Lit>>, s: State, ms: seq<Lit>)
    requires Good(f, s) && AsnOk(s.a) && s.a.level == 0 && Dropped(s.a.vals, ms) && forall m :: m in ms ==> m >= 2
    ensures Good(f + {ms}, s)
  {
    hide Faithful, SeenFits, HeapOk, InMax, AsnOk, Dropped;
    FaithfulDrop(f, s.a, s.cls, s.added, s.bot, ms);
  }

  /** The completed clause ms was stored at p, shortened to kept; if kept is one literal
    then it is assigned. */
  lemma AddState(f: set<seq<Lit>>, s: State, s': State, h: int, ms: seq<Lit>, p: int, kept: seq<Lit>)
    requires Good(f, s) && Settled(s, h) && s.a.level == 0 && p > 0 && p !in s.cls
    requires Simplified(s.a.vals, ms, kept) && ClauseOk(|s.a.vals|, kept) && forall m :: m in ms ==> 2 <= m <= 2 * s.max + 1
    requires s' == s.(cls := s.cls[p := kept], added := s.added + {p}, full := s.full + {p}, bot := if |kept| == 0 then p else s.bot, ws := WithWatches(s.ws, p, kept))
    ensures |kept| != 1 ==> Good(f + {ms}, s') && Settled(s', h)
    ensures |kept| == 1 ==> LitOk(s.a, kept[0]) && s.a.vals[kept[0]] == 0
    ensures |kept| == 1 ==> var t := s'.(a := Assigned(s.a, kept[0], p)); Good(f + {ms}, t) && Settled(t, h)
  {
    hide AsnOk, ReasonsOk, WatchesOk, ClauseOk, Good, Settled;
    SettledParts(s, h);
    GoodAll(f, s);
    AddSettled(s, s', h, ms, p, kept);
    FaithfulAdd(f, s.a, s.cls, s.added, s.bot, ms, p, kept);
    AddInMax(s.cls, s.max, ms, p, kept, s.a.vals);
    if |kept| == 1 {
      var u := kept[0];
      OneKept(s.a, ms, kept);
      AssignSettled(s', h, u, p);
      AssignKeeps(s.a, u, p);
      ZeroAssign(s.a, u, p);
      AssignedHolds(s.a, u, p);
      var t := s'.(a := Assigned(s.a, u, p));
      AddFaithful(f + {ms}, s.a, t.a, t.cls, s.added, p, t.bot);
      SeenMore(s.a, t.a, s.seen);
      AssignHeap(s.a, s.pos, s.max, u, p);
      GoodOf(f + {ms}, t);
    } else {
      SizesZero(s.a);
      AddFaithful(f + {ms}, s.a, s.a, s'.cls, s.added, p, s'.bot);
      GoodOf(f + {ms}, s');
    }
  }

  lemma SizesZero(a: Asn)
    requires Sizes(a)
    ensures ZeroKept(a, a)
  {
  }

  lemma GoodAll(f: set<seq<Lit>>, s: State)
    requires Good(f, s)
    ensures Faithful(f, s.a, s.cls, s.added, s.bot) && SeenFits(s.a, s.seen) && HeapOk(s.a.vals, s.pos, s.max) && InMax(s.cls, s.max)
  {
  }

  lemma GoodFull(f: set<seq<Lit>>, s: State, full: set<int>)
    requires Good(f, s)
    ensures Good(f, s.(full := full))
  {
  }

  lemma GoodOf(f: set<seq<Lit>>, s: State)
    requires Faithful(f, s.a, s.cls, s.added, s.bot) && SeenFits(s.a, s.seen) && HeapOk(s.a.vals, s.pos, s.max) && InMax(s.cls, s.max)
    ensures Good(f, s)
  {
  }

  lemma AssignHeap(a: Asn, pos: seq<int>, max: int, m: Lit, c: int)
    requires AsnOk(a) && LitOk(a, m) && a.vals[m] == 0 && HeapOk(a.vals, pos, max)
    ensures HeapOk(Assigned(a, m, c).vals, pos, max)
  {
  }

  lemma AddInMax(cls: Cls, max: int, ms: seq<Lit>, p: int, kept: seq<Lit>, vals: seq<int>)
    requires InMax(cls, max) && Simplified(vals, ms, kept) && forall m :: m in ms ==> 2 <= m <= 2 * max + 1
    ensures InMax(cls[p := kept], max)
  {
  }

  lemma OneKept(a: Asn, ms: seq<Lit>, kept: seq<Lit>)
    requires Sizes(a) && Simplified(a.vals, ms, kept) && |kept| == 1
    ensures LitOk(a, kept[0]) && a.vals[kept[0]] == 0 && kept[0] in kept && kept[1..] == []
  {
  }

  /** With its literal, if there is only one, true at level 0, the new clause is in order. */
  lemma AddFaithful(f: set<seq<Lit>>, a: Asn, b: Asn, cls: Cls, added: set<int>, p: int, bot: int)
    requires Sizes(a) && Sizes(b) && ZeroKept(a, b) && p in cls
    requires Sound(f, cls) && Represents(f, a, cls, added + {p}) && UnitsOk(a, cls, added) && BotOk(cls, bot)
    requires |cls[p]| == 1 ==> TrueAtZero(b, cls[p][0])
    ensures Faithful(f, b, cls, added + {p}, bot)
  {
  }

  /** The watched literals of the new clause are unassigned. */
  lemma AddSettled(s: State, s': State, h: int, ms: seq<Lit>, p: int, kept: seq<Lit>)
    requires Settled(s, h) && p > 0 && p !in s.cls && Simplified(s.a.vals, ms, kept) && ClauseOk(|s.a.vals|, kept)
    requires s' == s.(cls := s.cls[p := kept], added := s.added + {p}, full := s.full + {p}, bot := s'.bot, ws := WithWatches(s.ws, p, kept))
    ensures Settled(s', h)
  {
    hide AsnOk, WatchesOk, ReasonsOk, ClauseOk, WithWatches, Blocked, QueueOk;
    AddWatches(s.cls, s.ws, |s.a.vals|, p, kept);
    LearnCore(s.a, s.cls, p, kept);
    SettledParts(s, h);
    var cls' := s'.cls;
    forall q, l | q in s'.full && LitOk(s.a, l) && Watched(cls', q, l) && s.a.vals[l] == -1 && s.a.pos[Var(l)] < h
      ensures Blocked(s.a, cls'[q], s.a.levels[Var(l)])
    {
      NewWatched(s.a, ms, kept, l);
      assert q != p;
      assert Watched(s.cls, q, l);
    }
  }

  lemma NewWatched(a: Asn, ms: seq<Lit>, kept: seq<Lit>, l: Lit)
    requires Sizes(a) && Simplified(a.vals, ms, kept) && LitOk(a, l) && a.vals[l] == -1
    ensures !WatchedIn(kept, l)
  {
  }

  lemma MaxNat(f: set<seq<Lit>>, s: State)
    requires Good(f, s)
    ensures 0 <= s.max && 2 * s.max + 1 < |s.a.vals|
  {
  }

  /** More variables come into use, all on the heap. */
  lemma EnterState(f: set<seq<Lit>>, s: State, s': State, h: int, ready: bool)
    requires Good(f, s) && Low(s) && (ready ==> Settled(s, h)) && s' == s.(pos := s'.pos, max := s'.max)
    requires s.max < s'.max && 2 * s'.max + 1 < |s.a.vals| && |s'.pos| == |s.pos|
    requires forall u :: 0 <= u < |s.pos| ==> (s'.pos[u] != -1 <==> s.pos[u] != -1 || s.max < u <= s'.max)
    ensures Good(f, s') && Low(s') && (ready ==> Settled(s', h))
  {
  }

  lemma LowPos(s: State, s': State)
    requires Low(s) && s' == s.(seen := s'.seen, pos := s'.pos, max := s'.max)
    ensures Low(s')
  {
  }

  lemma ClashPos(s: State, s': State, c: int)
    requires Clash(s, c) && s' == s.(seen := s'.seen, pos := s'.pos, max := s'.max)
    ensures Clash(s', c)
  {
  }

  lemma SettledPos(s: State, s': State, h: int)
    requires Settled(s, h) && s' == s.(seen := s'.seen, pos := s'.pos, max := s'.max)
    ensures Settled(s', h)
  {
  }

  lemma StoredEnd(d: seq<int>, p: int, c: seq<Lit>)
    requires Stored(d, p, c) && |c| >= 1
    ensures p >= 1 && p + 1 < |d| && d[p + 1] == if |c| == 1 then NULL else c[1]
  {
  }

  lemma StoredNext(d: seq<int>, p: int, c: seq<Lit>, i: int)
    requires Stored(d, p, c) && 0 <= i < |c|
    ensures p >= 1 && p + i + 1 < |d| && d[p + i] == c[i] != NULL && d[p + i + 1] == if i + 1 == |c| then NULL else c[i + 1]
  {
  }

  lemma BoundsOf(cls: Cls, max: int, p: int)
    requires InMax(cls, max) && p in cls
    ensures InBound(cls[p], 2 * max + 1)
  {
  }

  lemma ConflictHolds(cls: Cls, x: int)
    requires x in cls
    ensures forall v :: ModelsCls(v, cls) ==> Sat(v, cls[x])
  {
  }

  ghost predicate Satisfiable(f: set<seq<Lit>>, asked: seq<Lit>) {
    exists v :: Models(v, f) && AllHold(v, asked)
  }

  lemma RefutedUnsat(f: set<seq<Lit>>, asked: seq<Lit>)
    requires Refuted(f, asked)
    ensures !Satisfiable(f, asked)
  {
  }

  lemma ModelSat(f: set<seq<Lit>>, asked: seq<Lit>, v: Valuation)
    requires Models(v, f) && AllHold(v, asked)
    ensures Satisfiable(f, asked)
  {
  }

  lemma SettledModel(f: set<seq<Lit>>, s: State)
    requires Good(f, s) && Settled(s, |s.a.trail|) && s.bot == 0 && AsnOk(s.a) && Sizes(s.a) && Represents(f, s.a, s.cls, s.added)
    requires forall p, m {:trigger m in s.cls[p]} :: p in s.cls && m in s.cls[p] ==> LitOk(s.a, m) && s.a.vals[m] != 0
    ensures Models(ValOf(s.a.vals), f)
  {
    hide Settled, Good, AsnOk, Represents, Models, ValOf;
    forall p | p in s.added && p in s.cls ensures exists t :: t in s.cls[p] && LitOk(s.a, t) && s.a.vals[t] == 1 {
      SettledTrue(f, s, p);
      var i :| 0 <= i < |s.cls[p]| && s.cls[p][i] < |s.a.vals| && 0 <= s.cls[p][i] && s.a.vals[s.cls[p][i]] == 1;
      var t := s.cls[p][i];
      assert t in s.cls[p];
    }
    ModelFound(f, s.a, s.cls, s.added);
  }

  lemma UnderModel(a: Asn, asked: seq<Lit>, l: int)
    requires AsnOk(a) && Under(a, asked, l)
    ensures AllHold(ValOf(a.vals), asked)
  {
    hide AsnOk, ValOf;
    forall m | m in asked ensures Holds(ValOf(a.vals), m) {
      ValHolds(a, m);
    }
  }

  lemma HasFirst(ps: seq<int>)
    requires |ps| > 0
    ensures exists p :: p in ps
  {
    var p := ps[0];
    assert p in ps;
  }

  lemma NoneIn(ps: seq<int>)
    requires forall p :: p !in ps
    ensures ps == []
  {
    if |ps| > 0 {
      HasFirst(ps);
    }
  }

  lemma SettledTrue(f: set<seq<Lit>>, s: State, p: int)
    requires Good(f, s) && Settled(s, |s.a.trail|) && s.bot == 0 && p in s.added && p in s.cls
    requires forall m {:trigger m in s.cls[p]} :: m in s.cls[p] ==> LitOk(s.a, m) && s.a.vals[m] != 0
    ensures exists i :: 0 <= i < |s.cls[p]| && s.cls[p][i] < |s.a.vals| && 0 <= s.cls[p][i] && s.a.vals[s.cls[p][i]] == 1
  {
    hide PropOk, Faithful;
    var t := AddedTrue(f, s.a, s.cls, s.added, s.full, s.ws, p);
    var i :| 0 <= i < |s.cls[p]| && s.cls[p][i] == t;
  }

  lemma DecisionsMore(a: Asn, held: seq<Lit>, m: Lit, l: int)
    requires Sizes(a) && DecisionsIn(a, held, l)
    ensures DecisionsIn(a, held + [m], l)
  {
  }

  lemma NoneEmpty(f: set<seq<Lit>>, s: State, m: Lit)
    requires GoodBut(f, s, Var(m)) && s.bot == 0
    ensures forall p :: p in s.cls ==> |s.cls[p]| >= 1
  {
  }

  /** The collector keeps the state in order. */
  lemma CollectStep(f: set<seq<Lit>>, s: State, s': State, h: int, learnts: seq<int>, added: seq<int>, rm: set<int>, m: map<int, int>, x: int)
    requires GoodBut(f, s, x) && Settled(s, h) && s.bot == 0 && s.added == SetOf(added)
    requires forall p :: p in learnts ==> p !in added
    requires Collected(s.a, s.cls, learnts, s'.a, s'.cls, rm, m)
    requires s' == s.(a := s'.a, cls := s'.cls, added := SetOf(RelocAll(added, m)), full := Image(s.full - rm, m), ws := RelocLists(s.ws, m))
    ensures GoodBut(f, s', x) && Settled(s', h)
    ensures |s'.a.reasons| == |s.a.reasons|
  {
    hide GoodBut, Moved, RelocAll, RelocLists, Removable;
    SettledParts(s, h);
    hide Settled;
    ImageOf(added, m);
    assert forall p :: p !in s.added * rm;
    RelocGood(f, s, s', rm, m, x);
    RelocStep(s, s', h, rm, m);
  }

  lemma RelocStep(s: State, s': State, h: int, rm: set<int>, m: map<int, int>)
    requires Settled(s, h) && Moved(s.cls, s'.cls, rm, m) && NoReason(s.a, rm) && s.added * rm == {}
    requires s' == s.(a := RelocAsn(s.a, m), cls := s'.cls, added := Image(s.added, m), full := Image(s.full - rm, m), ws := RelocLists(s.ws, m))
    ensures Settled(s', h) && |s'.a.reasons| == |s.a.reasons|
  {
    hide Moved, RelocLists, PropOk;
    PropLess(s.a, s.cls, s.full, s.full - rm, s.ws, h);
    RelocProp(s.a, s.cls, s'.cls, s.full - rm, s.ws, h, rm, m);
    ImageLess(s.added, s.full, rm, m);
  }

  lemma PropLess(a: Asn, cls: Cls, full: set<int>, less: set<int>, ws: Lists, h: int)
    requires PropOk(a, cls, full, ws, h, 0, {}) && less <= full
    ensures PropOk(a, cls, less, ws, h, 0, {})
  {
  }

  lemma ImageLess(added: set<int>, full: set<int>, rm: set<int>, m: map<int, int>)
    requires added <= full && added * rm == {}
    ensures Image(added, m) <= Image(full - rm, m)
  {
    forall p | p in added ensures p in full - rm {
      assert p in rm ==> p in added * rm;
    }
  }

  lemma CollectUnder(a: Asn, a': Asn, cls: Cls, cls': Cls, learnts: seq<int>, rm: set<int>, m: map<int, int>, asked: seq<Lit>, l: int)
    requires Core(a, cls) && Collected(a, cls, learnts, a', cls', rm, m) && Under(a, asked, l)
    ensures Under(a', asked, l) && Rank(a') == Rank(a)
  {
  }

  lemma PosVal(a: Asn, m: Lit)
    requires AsnOk(a) && 1 <= Var(m) && 2 * Var(m) + 1 < |a.vals| && a.vals[2 * Var(m)] == 0
    ensures LitOk(a, m) && a.vals[m] == 0
  {
    hide AsnOk;
    FlipVals(a, 2 * Var(m));
  }

  lemma ChooseGood(f: set<seq<Lit>>, s: State, s': State, m: Lit, h: int)
    requires Good(f, s) && Settled(s, h) && AsnOk(s.a) && s' == s.(pos := s'.pos) && |s'.pos| == |s.pos|
    requires forall u :: 0 <= u < |s.pos| && s.pos[u] != -1 ==> 1 <= u && 2 * u + 1 < |s.a.vals|
    requires forall u :: 0 <= u < |s.pos| && s'.pos[u] != -1 ==> s.pos[u] != -1
    requires forall u :: 0 <= u < |s.pos| && s.pos[u] != -1 && s.a.vals[2 * u] == 0 && (m == NULL || u != Var(m)) ==> s'.pos[u] != -1
    requires m == NULL ==> forall u :: 0 <= u < |s.pos| && s.pos[u] != -1 ==> s.a.vals[2 * u] != 0
    requires m != NULL ==> 0 <= Var(m) < |s.pos| && s.pos[Var(m)] != -1 && s.a.vals[2 * Var(m)] == 0
    ensures m == NULL ==> Good(f, s') && 2 * s.max + 1 < |s.a.vals| && forall u :: 1 <= u <= s.max ==> s.a.vals[2 * u] != 0
    ensures m != NULL ==> GoodBut(f, s', Var(m)) && LitOk(s.a, m) && s.a.vals[m] == 0
    ensures Settled(s', h)
  {
    hide Faithful, SeenFits, AsnOk, InMax, PropOk, Var;
    if m != NULL {
      PosVal(s.a, m);
    } else {
      forall u | 1 <= u <= s.max ensures s.a.vals[2 * u] != 0 {
        assert s.pos[u] != -1 || s.a.vals[2 * u] != 0;
      }
    }
  }

  lemma AssignedSizes(a: Asn, m: Lit, c: int)
    requires Sizes(a) && LitOk(a, m)
    ensures |Assigned(a, m, c).reasons| == |a.reasons| && |Assigned(a, m, c).vals| == |a.vals|
  {
  }

  /** Before anything is added. */
  lemma InitGood(f: set<seq<Lit>>, s: State, top: int)
    requires f == {} && top >= 4 && s.cls == map[] && s.added == s.full == {} && s.bot == 0 && s.max == 0
    requires s.a.trail == s.a.lv == s.a.why == s.a.starts == [] && s.a.level == 0
    requires |s.a.vals| == |s.ws| == 2 * top && |s.a.levels| == |s.a.reasons| == |s.a.pos| == |s.seen| == top
    requires forall k :: 0 <= k < 2 * top ==> s.a.vals[k] == 0 && s.ws[k] == []
    requires forall k :: 0 <= k < top ==> s.a.reasons[k] == 0 && !s.seen[k]
    requires |s.pos| == top + 1 && forall k :: 0 <= k <= top ==> s.pos[k] == -1
    ensures Good(f, s) && Settled(s, 0)
  {
    hide AsnOk, Good, Settled;
    InitAsn(s.a, top);
    InitFaithful(f, s, top);
    InitSettled(s, top);
  }

  lemma InitFaithful(f: set<seq<Lit>>, s: State, top: int)
    requires f == {} && top >= 4 && s.cls == map[] && s.added == s.full == {} && s.bot == 0 && s.max == 0
    requires |s.a.vals| == 2 * top && |s.a.levels| == |s.a.reasons| == |s.a.pos| == |s.seen| == top && |s.a.trail| == |s.a.lv| == |s.a.why| == 0
    requires forall k :: 0 <= k < top ==> !s.seen[k]
    requires |s.pos| == top + 1 && forall k :: 0 <= k <= top ==> s.pos[k] == -1
    ensures Good(f, s)
  {
  }

  lemma InitSettled(s: State, top: int)
    requires top >= 4 && s.cls == map[] && s.added == s.full == {} && AsnOk(s.a) && s.a.trail == s.a.lv == s.a.why == []
    requires |s.a.vals| == |s.ws| == 2 * top && forall k :: 0 <= k < 2 * top ==> s.ws[k] == []
    ensures Settled(s, 0)
  {
  }

  lemma InitLists(cls: Cls, added: seq<int>, learnts: seq<int>, rmq: seq<int>)
    requires cls == map[] && added == learnts == rmq == []
    ensures ListsOk(cls, added, learnts, rmq) && cls - SetOf(rmq) == map[] && SetOf(added) == {}
  {
  }
}
