/** The clause database (internal/xo/cdb.go) and the per-variable data it
  shares with the rest of the solver (internal/xo/vars.go). */
module Database {
  import opened Lits
  import opened Counting
  import opened Clauses
  import opened Watching
  import opened FlatStore
  import opened Headers
  import opened Relocation

  class Vars {
    var Max: int           // the largest variable in use
    var Top: int           // larger than any variable there is room for
    var Vals: seq<int>     // per literal
    var Reasons: seq<int>  // per variable
    var Levels: seq<int>   // per variable
    var Watches: Lists     // per literal

    constructor (top: int)
      requires top >= 1
      ensures Max == 0 && Top == top && Vals == seq(2 * top, _ => 0) && Reasons == Levels == seq(top, _ => 0)
      ensures Watches == seq(2 * top, _ => [])
    {
      Max := 0;
      Top := top;
      Vals := seq(2 * top, _ => 0);
      Reasons := seq(top, _ => 0);
      Levels := seq(top, _ => 0);
      Watches := seq(2 * top, _ => []);
    }

    method growToVar(u: int)
      requires u + 1 >= |Reasons| == |Levels| && |Vals| == |Watches| == 2 * |Reasons|
      modifies this
      ensures Top == u && Max == old(Max)
      ensures Vals == Pad(old(Vals), 2 * (u + 1), 0) && Watches == Pad(old(Watches), 2 * (u + 1), [])
      ensures Reasons == Pad(old(Reasons), u + 1, 0) && Levels == Pad(old(Levels), u + 1, 0)
    {
      var w := u + 1;
      Vals := Pad(Vals, 2 * w, 0);
      Reasons := Pad(Reasons, w, 0);
      Levels := Pad(Levels, w, 0);
      Watches := Pad(Watches, 2 * w, []);
      Top := u;
    }
  }

  /** Every stored clause is given, derived or waiting for removal, and only one of these. */
  ghost predicate ListsOk(cls: Cls, added: seq<int>, learnts: seq<int>, rmq: seq<int>) {
    multiset(added) + multiset(learnts) + multiset(rmq) == multiset(cls.Keys)
  }

  // Returned by Add when no clause was stored: the largest 32-bit number in
  // internal/xo/cloc.go; here, where places are unbounded, a number that is no place.
  const CINF: int := -1

  /** Of the words after a clause's first those of a short clause tell its length. */
  lemma StoredShort(d: seq<int>, p: int, c: seq<Lit>)
    requires Stored(d, p, c) && |c| >= 1
    ensures d[p] == c[0] && p + 1 < |d| && (|c| == 1 <==> d[p + 1] == NULL)
    ensures |c| == 2 ==> p + 2 < |d| && d[p + 2] == NULL
    ensures |c| >= 3 ==> p + 2 < |d| && d[p + 2] != NULL
  {
    assert d[p + 0] == c[0];
    assert |c| >= 2 ==> d[p + 1] == c[1] && c[1] != NULL;
    assert |c| >= 3 ==> d[p + 2] == c[2] && c[2] != NULL;
  }

  /** IsBinary looks two words beyond the first literal: it takes a unit clause for a
    binary one exactly if a clause follows whose header is zero. */
  lemma TakenForBinary(d: seq<int>, cls: Cls, locs: seq<int>, p: int)
    requires Layout(|d|, cls, locs) && AllStored(d, cls) && p in cls && |cls[p]| >= 1
    ensures |d| > p + 2 && d[p + 2] == NULL <==> |cls[p]| == 2 || (|cls[p]| == 1 && p + 3 in cls && d[p + 2] == 0)
  {
    StoredAt(d, cls, p);
    StoredShort(d, p, cls[p]);
    if |cls[p]| == 1 && p + 2 < |d| {
      var x :| 0 <= x < |locs| && locs[x] == p;
      NextPlace(|d|, cls, locs, x);
      assert p + 3 == locs[x + 1];
    }
  }

  /** Such headers are those of given clauses with a multiple of 32 literals. */
  lemma ZeroHeader(learnt: bool, lbd: int, sz: int)
    requires sz >= 0
    ensures MakeChd(learnt, lbd, sz) == 0 <==> !learnt && lbd % LBD_MOD == 0 && sz % SIZE_MOD == 0
  {
  }

  /** It happens: a unit clause before a given clause of 32 literals. */
  lemma UnitNotBinary() returns (d: seq<int>, cls: Cls, locs: seq<int>, p: int)
    ensures Layout(|d|, cls, locs) && AllStored(d, cls) && p in cls && |cls[p]| == 1 && |d| > p + 2 && d[p + 2] == NULL
    ensures d[p - 1] == MakeChd(false, 0, 1) && d[p + 2] == MakeChd(false, 0, 32)
  {
    var c := seq(32, i => 2 * i + 4);
    d, cls, locs, p := [1, 2, NULL] + [0] + c + [NULL], map[1 := [2], 4 := c], [1, 4], 1;
    assert Stored(d, 1, [2]);
    assert Stored(d, 4, c);
  }

  /** The clause ms needs no storing: it has a true literal, or a literal and its negation. */
  ghost predicate Dropped(vals: seq<int>, ms: seq<Lit>) {
    exists m :: m in ms && ((0 <= m < |vals| && vals[m] == 1) || Not(m) in ms)
  }

  /** kept is what is left of ms without false and repeated literals. */
  ghost predicate Simplified(vals: seq<int>, ms: seq<Lit>, kept: seq<Lit>) {
    && (forall m :: m in kept ==> m in ms && 2 <= m < |vals| && vals[m] == 0)
    && (forall m :: m in ms ==> 2 <= m < |vals| && (m in kept || vals[m] == -1))
    && (forall i, j :: 0 <= i < j < |kept| ==> Var(kept[i]) != Var(kept[j]))
  }

  /** The marks of the variables of the literals kept so far: their signs. */
  ghost predicate Marks(aVals: seq<int>, kept: seq<Lit>) {
    && (forall m :: m in kept ==> 0 <= Var(m) < |aVals| && aVals[Var(m)] == Sign(m))
    && (forall x :: 0 <= x < |aVals| && aVals[x] != 0 ==> Mk(x, aVals[x] == 1) in kept && -1 <= aVals[x] <= 1)
  }

  lemma MarkKept(aVals: seq<int>, kept: seq<Lit>, m: Lit)
    requires Marks(aVals, kept) && 0 <= Var(m) < |aVals| && aVals[Var(m)] == 0
    ensures Marks(aVals[Var(m) := Sign(m)], kept + [m])
    ensures forall k :: k in kept ==> Var(k) != Var(m)
  {
    hide Var, IsPos, Mk;
    LitFacts();
    assert forall k :: k in kept + [m] <==> k in kept || k == m;
  }

  lemma MarkedSign(aVals: seq<int>, kept: seq<Lit>, m: Lit)
    requires Marks(aVals, kept) && 0 <= Var(m) < |aVals| && aVals[Var(m)] != 0
    ensures aVals[Var(m)] * Sign(m) == -1 ==> Not(m) in kept
    ensures aVals[Var(m)] * Sign(m) != -1 ==> aVals[Var(m)] * Sign(m) == 1 && m in kept
  {
    hide Var, IsPos, Mk, Not;
    LitFacts();
  }

  class Cdb {
    const vars: Vars
    const cdat: CDat
    var AddLits: seq<Lit>    // the clause being added
    var AddVals: seq<int>    // per variable: scratch marks
    var Bot: int             // an empty clause, or 0
    var Added: seq<int>      // clauses given by the user
    ghost var Full: set<int> // clauses for which propagation is complete: these, and some derived ones
    var Learnts: seq<int>    // derived clauses
    var rmq: seq<int>        // clauses no longer in use but still stored

    constructor (v: Vars)
      ensures vars == v && fresh(cdat) && cdat.Valid() && cdat.Cls == map[]
      ensures AddVals == seq(|v.Reasons|, _ => 0)
      ensures AddLits == [] && Bot == 0 && Added == [] && Learnts == [] && rmq == [] && Full == {}
    {
      vars := v;
      cdat := new CDat();
      AddLits, Bot, Added, Learnts, rmq, Full := [], 0, [], [], [], {};
      AddVals := seq(|v.Reasons|, _ => 0);
    }

    /** The clauses in use. */
    ghost function Live(): Cls
      reads this, cdat
    {
      cdat.Cls - SetOf(rmq)
    }

    /** The clauses given by the user, as a set of places. */
    ghost function AddedSet(): set<int>
      reads this
    {
      SetOf(Added)
    }

    ghost predicate Valid()
      reads this, cdat
    {
      cdat.Valid() && ListsOk(cdat.Cls, Added, Learnts, rmq)
    }

    method growToVar(u: int)
      requires u + 1 >= |AddVals|
      modifies this`AddVals
      ensures AddVals == Pad(old(AddVals), u + 1, 0)
    {
      AddVals := Pad(AddVals, u + 1, 0);
    }

    /** Enters clause ms, stored at p, in the watch lists of its first two literals. */
    method watch(p: int, ms: seq<Lit>)
      requires forall i :: 0 <= i < |ms| ==> 0 <= ms[i] < |vars.Watches|
      modifies vars`Watches
      ensures vars.Watches == WithWatches(old(vars.Watches), p, ms)
    {
      if |ms| >= 2 {
        var m, n := ms[0], ms[1];
        vars.Watches := vars.Watches[m := vars.Watches[m] + [Watch(p, n, |ms| == 2)]];
        vars.Watches := vars.Watches[n := vars.Watches[n] + [Watch(p, m, |ms| == 2)]];
      }
    }

    /** Moves the literals of the new clause that are neither false nor repeated to
      the front of AddLits; sat tells whether the clause is not needed at all. */
    method simplify() returns (j: int, sat: bool)
      requires forall m :: m in AddLits ==> 2 <= m < |vars.Vals| && 0 <= Var(m) < |AddVals| && -1 <= vars.Vals[m] <= 1
      requires forall x :: 0 <= x < |AddVals| ==> AddVals[x] == 0
      modifies this`AddLits, this`AddVals
      ensures 0 <= j <= |AddLits| && |AddVals| == |old(AddVals)| && Marks(AddVals, AddLits[..j])
      ensures forall m :: m in AddLits ==> m in old(AddLits)
      ensures sat ==> Dropped(vars.Vals, old(AddLits))
      ensures !sat ==> Simplified(vars.Vals, old(AddLits), AddLits[..j])
    {
      hide Var, Sign, Mk, Marks, Not, Simplified;
      ghost var ms := AddLits;
      MarksNone(AddVals);
      var i := 0;
      j, sat := 0, false;
      assert AddLits[..0] == ms[..0] == [];
      SimplifiedNone(vars.Vals);
      while i < |AddLits|
        invariant 0 <= j <= i <= |AddLits| == |ms| && !sat && AddLits[i..] == ms[i..]
        invariant |AddVals| == |old(AddVals)| && Marks(AddVals, AddLits[..j])
        invariant Simplified(vars.Vals, ms[..i], AddLits[..j])
        invariant forall m :: m in AddLits ==> m in ms
      {
        var m := AddLits[i];
        assert m == ms[i..][0] == ms[i] && m in ms;
        var us, asg := vars.Vals[m], AddVals[Var(m)];
        ghost var kept := AddLits[..j];
        assert ms[..i + 1] == ms[..i] + [m];
        if us == 0 && asg == 0 {
          MarkKept(AddVals, kept, m);
          SimplifiedKeep(vars.Vals, ms[..i], kept, m);
          AddLits := AddLits[j := m];
          assert AddLits[..j + 1] == kept + [m];
          j := j + 1;
          AddVals := AddVals[Var(m) := Sign(m)];
        } else {
          if asg != 0 {
            MarkedSign(AddVals, kept, m);
          }
          if us == 1 || asg * Sign(m) == -1 {
            sat := true;
            SimplifiedFrom(vars.Vals, ms, i, kept);
            return;
          }
          SimplifiedDrop(vars.Vals, ms[..i], kept, m);
        }
        i := i + 1;
      }
      assert ms[..i] == ms;
    }

    /** Takes the marks of the new clause back. */
    method clearMarks(ghost j: int)
      requires 0 <= j <= |AddLits| && Marks(AddVals, AddLits[..j])
      requires forall k :: 0 <= k < |AddLits| ==> 0 <= Var(AddLits[k]) < |AddVals|
      modifies this`AddVals
      ensures |AddVals| == |old(AddVals)| && forall x :: 0 <= x < |AddVals| ==> AddVals[x] == 0
    {
      MarksVars(AddVals, AddLits, j);
      hide Var, Marks;
      for i := 0 to |AddLits|
        invariant |AddVals| == |old(AddVals)|
        invariant forall x :: 0 <= x < |AddVals| && AddVals[x] != 0 ==> exists k :: i <= k < |AddLits| && Var(AddLits[k]) == x
      {
        AddVals := AddVals[Var(AddLits[i]) := 0];
      }
    }

    /** Adds the literal m to the new clause or, when m is null, completes it: the
      clause is simplified and stored unless it is satisfied.  Returns its place
      and, if one literal is left, that literal, which the caller is to assign. */
    method Add(m: Lit) returns (loc: int, unit: Lit)
      requires Valid() && |vars.Watches| == |vars.Vals|
      requires m != NULL || forall k :: k in AddLits ==> 2 <= k < |vars.Vals| && 0 <= Var(k) < |AddVals| && -1 <= vars.Vals[k] <= 1
      requires forall x :: 0 <= x < |AddVals| ==> AddVals[x] == 0
      modifies this`AddLits, this`AddVals, this`Added, this`Full, this`Bot, cdat, vars`Watches
      ensures Valid() && |AddVals| == |old(AddVals)| && forall x :: 0 <= x < |AddVals| ==> AddVals[x] == 0
      ensures AddLits == if m == NULL then [] else old(AddLits) + [m]
      ensures Full == if loc == CINF then old(Full) else old(Full) + {loc}
      ensures loc == CINF ==> unit == NULL && Live() == old(Live()) && Added == old(Added) && Bot == old(Bot) && vars.Watches == old(vars.Watches)
      ensures m != NULL ==> loc == CINF
      ensures m == NULL && loc == CINF ==> Dropped(vars.Vals, old(AddLits))
      ensures loc != CINF ==> loc > 0 && loc !in old(Live()) && Added == old(Added) + [loc] && loc in Live()
      ensures loc != CINF ==> Simplified(vars.Vals, old(AddLits), Live()[loc]) && ClauseOk(|vars.Vals|, Live()[loc])
      ensures loc != CINF ==> Live() == old(Live())[loc := Live()[loc]] && vars.Watches == WithWatches(old(vars.Watches), loc, Live()[loc])
      ensures loc != CINF ==> unit == (if |Live()[loc]| == 1 then Live()[loc][0] else NULL)
      ensures loc != CINF ==> Bot == (if |Live()[loc]| == 0 then loc else old(Bot))
      ensures loc != CINF ==> loc == |old(cdat.D)| + 1 && cdat.D == old(cdat.D) + [MakeChd(false, 0, |Live()[loc]|)] + Live()[loc] + [NULL]
    {
      hide Layout, Stored, Simplified, Dropped, Marks, ClauseOk, WithWatches, ListsOk;
      loc, unit := CINF, NULL;
      if m != NULL {
        AddLits := AddLits + [m];
        return;
      }
      ghost var ms, cls0 := AddLits, cdat.Cls;
      var j, sat := simplify();
      if !sat {
        var kept := AddLits[..j];
        SimplifiedOk(vars.Vals, ms, kept);
        NoNull(|vars.Vals|, kept);
        loc := cdat.AddLits(MakeChd(false, 0, j), kept);
        LiveNew(cls0, Added, Learnts, rmq, loc, kept);
        Added, Full := Added + [loc], Full + {loc};
        if j == 0 {
          Bot := loc;
        }
        if j == 1 {
          unit := kept[0];
        }
        watch(loc, kept);
      }
      clearMarks(j);
      AddLits := [];
    }

    /** Stores a derived clause. */
    method Learn(ms: seq<Lit>, lbd: int) returns (ret: int)
      requires Valid() && ClauseOk(|vars.Watches|, ms)
      modifies this`Learnts, this`Bot, cdat, vars`Watches
      ensures Valid() && ret > 0 && ret !in old(Live()) && Live() == old(Live())[ret := ms]
      ensures Learnts == old(Learnts) + [ret] && Bot == if |ms| == 0 then ret else old(Bot)
      ensures vars.Watches == WithWatches(old(vars.Watches), ret, ms)
      ensures ret == |old(cdat.D)| + 1 && cdat.D == old(cdat.D) + [MakeChd(true, lbd, |ms|)] + ms + [NULL]
    {
      hide Layout, Stored, WithWatches;
      ghost var cls0 := cdat.Cls;
      NoNull(|vars.Watches|, ms);
      ret := cdat.AddLits(MakeChd(true, lbd, |ms|), ms);
      LiveNew(cls0, Added, Learnts, rmq, ret, ms);
      if |ms| == 0 {
        Bot := ret;
      }
      watch(ret, ms);
      Learnts := Learnts + [ret];
    }

    /** Clause p was used: it gets hotter, and when it is as hot as can be all clauses
      cool down.  Only headers change. */
    method Bump(p: int)
      requires Valid() && p in cdat.Cls
      modifies cdat`D, cdat`bumpInc
      ensures Valid() && 1 <= p <= |old(cdat.D)|
      ensures var d, n := old(cdat.D), old(cdat.bumpInc);
        var d1 := d[p - 1 := Bumped(d[p - 1], n)];
        if HeatFull(d[p - 1], n) then cdat.D == CoolAll(d1, Added + Learnts) && cdat.bumpInc == n / 2
        else cdat.D == d1 && cdat.bumpInc == n
    {
      hide Layout, Stored, Bumped, Cooled, HeatFull, ListsOk, CoolAll;
      var full := cdat.Bump(p);
      if full {
        ghost var d := cdat.D;
        CoolNone(d);
        cool(Added, d, []);
        assert [] + Added == Added;
        cool(Learnts, d, Added);
        cdat.bumpInc := cdat.bumpInc / 2;
      }
    }

    /** Cools the clauses ps down; done are those that have been. */
    method cool(ps: seq<int>, ghost d: seq<int>, ghost done: seq<int>)
      requires Valid() && (ps == Added || ps == Learnts) && cdat.D == CoolAll(d, done)
      modifies cdat`D
      ensures Valid() && cdat.D == CoolAll(d, done + ps)
    {
      hide Layout, Stored, Cooled, ListsOk, CoolAll, SizeBits;
      InLists(cdat.Cls, Added, Learnts, rmq);
      assert done + ps[..0] == done;
      for i := 0 to |ps|
        invariant Valid() && cdat.D == CoolAll(d, done + ps[..i])
      {
        var p := ps[i];
        HeaderPlace(cdat.D, cdat.Cls, p);
        SizeKept(cdat.D[p - 1], 0);
        CoolNext(d, done + ps[..i], p);
        assert done + ps[..i] + [p] == done + ps[..i + 1];
        cdat.SetChd(p, Cooled(cdat.D[p - 1]));
      }
      assert ps[..|ps|] == ps;
    }

    /** The literals of clause c, stored at p0, appended to ms0. */
    method Lits(p0: int, ms0: seq<Lit>, ghost c: seq<Lit>) returns (ms: seq<Lit>)
      requires Stored(cdat.D, p0, c)
      ensures ms == ms0 + c
    {
      var p := p0;
      ms := ms0;
      while true
        invariant p0 <= p <= p0 + |c| && ms == ms0 + c[..p - p0]
        decreases p0 + |c| - p
      {
        var m := cdat.D[p];
        assert m == if p - p0 == |c| then NULL else c[p - p0];
        if m == NULL {
          assert c[..p - p0] == c;
          break;
        }
        assert c[..p - p0 + 1] == c[..p - p0] + [m];
        p := p + 1;
        ms := ms + [m];
      }
    }

    /** The given clauses without a true literal. */
    method CheckModel(ghost cls: Cls) returns (errs: seq<int>)
      requires forall p :: p in Added ==> p in cls && Stored(cdat.D, p, cls[p]) && forall i :: 0 <= i < |cls[p]| ==> 0 <= cls[p][i] < |vars.Vals|
      ensures forall p :: p in errs <==> p in Added && forall i :: 0 <= i < |cls[p]| ==> vars.Vals[cls[p][i]] != 1
    {
      errs := [];
      for k := 0 to |Added|
        invariant forall p :: p in errs <==> p in Added[..k] && forall i :: 0 <= i < |cls[p]| ==> vars.Vals[cls[p][i]] != 1
      {
        var p := Added[k];
        assert Added[..k + 1] == Added[..k] + [p];
        var b := hasTrue(p, cls[p]);
        if !b {
          errs := errs + [p];
        }
      }
      assert Added[..|Added|] == Added;
    }

    method hasTrue(q: int, ghost c: seq<Lit>) returns (b: bool)
      requires Stored(cdat.D, q, c) && forall i :: 0 <= i < |c| ==> 0 <= c[i] < |vars.Vals|
      ensures b <==> exists i :: 0 <= i < |c| && vars.Vals[c[i]] == 1
    {
      var p := q;
      while true
        invariant q <= p <= q + |c| && forall i :: 0 <= i < p - q ==> vars.Vals[c[i]] != 1
        decreases q + |c| - p
      {
        var m := cdat.D[p];
        assert m == if p - q == |c| then NULL else c[p - q];
        if m == NULL {
          return false;
        }
        if vars.Vals[m] == 1 {
          return true;
        }
        p := p + 1;
      }
    }

    // ---- removing clauses ----

    /** Is clause o the reason of its first literal? */
    predicate InUse(o: int)
      reads this, cdat, vars
      requires 0 <= o < |cdat.D| && 0 <= Var(cdat.D[o]) < |vars.Reasons|
    {
      var m := cdat.D[o];
      m != NULL && vars.Reasons[Var(m)] == o
    }

    predicate IsBinary(p: int)
      reads this, cdat
      requires 0 <= p
    {
      |cdat.D| > p + 2 && cdat.D[p + 2] == NULL
    }

    predicate IsUnit(p: int)
      reads this, cdat
      requires 0 <= p + 1 < |cdat.D|
    {
      cdat.D[p + 1] == NULL
    }

    /** Notes literal m, unless it has been noted.  The first j literals were there before. */
    method noteWatched(m: Lit, wLits: seq<Lit>, ghost j: nat) returns (wLits': seq<Lit>)
      requires j <= |wLits| && WMarks(AddVals, wLits[j..]) && 0 <= Var(m) < |AddVals|
      modifies this`AddVals
      ensures |AddVals| == |old(AddVals)| && j <= |wLits'| && wLits'[..j] == wLits[..j] && WMarks(AddVals, wLits'[j..])
      ensures forall k :: k in wLits'[j..] <==> k in wLits[j..] || k == m
    {
      var mv := Var(m);
      wLits' := wLits;
      if AddVals[mv] == 2 || AddVals[mv] == Sign(m) {
        assert m in wLits[j..];
        return;
      }
      assert m !in wLits[j..];
      WMarkAdd(AddVals, wLits[j..], m);
      hide WMarks, Var, Sign;
      AddVals := AddVals[mv := if AddVals[mv] == 0 then Sign(m) else 2];
      wLits' := wLits + [m];
      assert wLits'[j..] == wLits[j..] + [m];
    }

    /** The literals of the clause being added, if there are any, and then the watched
      literals of the clauses rms, each once. */
    method noteAll(rms: seq<int>, ghost cls: Cls) returns (wLits: seq<Lit>)
      requires forall x :: 0 <= x < |AddVals| ==> AddVals[x] == 0
      requires forall p :: p in rms ==> p in cls && |cls[p]| >= 2 && Stored(cdat.D, p, cls[p])
      requires forall p :: p in rms ==> 0 <= Var(cls[p][0]) < |AddVals| && 0 <= Var(cls[p][1]) < |AddVals|
      modifies this`AddVals
      ensures |AddVals| == |old(AddVals)| && AddLits <= wLits && WMarks(AddVals, wLits[|AddLits|..])
      ensures forall p :: p in rms ==> cls[p][0] in wLits && cls[p][1] in wLits
      ensures forall k :: k in wLits ==> k in AddLits || exists p :: p in rms && (k == cls[p][0] || k == cls[p][1])
    {
      wLits := AddLits;
      ghost var j := |AddLits|;
      WMarksNone(AddVals);
      hide WMarks, Var;
      for i := 0 to |rms|
        invariant |AddVals| == |old(AddVals)| && j <= |wLits| && wLits[..j] == AddLits && WMarks(AddVals, wLits[j..])
        invariant forall p :: p in rms[..i] ==> cls[p][0] in wLits[j..] && cls[p][1] in wLits[j..]
        invariant forall k :: k in wLits[j..] ==> exists p :: p in rms && (k == cls[p][0] || k == cls[p][1])
      {
        var p := rms[i];
        assert p in rms && rms[..i + 1] == rms[..i] + [p];
        assert cdat.D[p] == cls[p][0] && cdat.D[p + 1] == cls[p][1];
        wLits := noteWatched(cdat.D[p], wLits, j);
        wLits := noteWatched(cdat.D[p + 1], wLits, j);
      }
      assert rms[..|rms|] == rms && wLits == AddLits + wLits[j..];
    }

    /** Drops the entries of the clauses in rMap. */
    method unlinkList(ws0: seq<Watch>, rMap: set<int>, ghost m: map<int, int>) returns (ws: seq<Watch>)
      requires forall p :: p in rMap <==> p in m
      requires forall p :: p in m ==> m[p] == 0
      ensures ws == RelocList(ws0, m)
    {
      ws := ws0;
      var j := 0;
      for i := 0 to |ws|
        invariant 0 <= j <= i <= |ws| == |ws0| && ws[i..] == ws0[i..] && ws[..j] == RelocList(ws0[..i], m)
      {
        var w := ws[i];
        assert w == ws[i..][0] == ws0[i];
        assert ws0[..i + 1] == ws0[..i] + [w] && ws0[..i + 1][..i] == ws0[..i];
        PutAt(ws, ws0, i, j, w);
        if w.c !in rMap {
          ws := ws[j := w];
          j := j + 1;
        }
      }
      assert ws0[..|ws0|] == ws0;
      ws := ws[..j];
    }

    /** Drops the entries of the clauses in rMap from the lists of wLits. */
    method filterAll(wLits: seq<Lit>, rMap: set<int>, ghost m: map<int, int>)
      requires forall p :: p in rMap <==> p in m
      requires forall p :: p in m ==> m[p] == 0
      requires forall i :: 0 <= i < |wLits| ==> 0 <= wLits[i] < |vars.Watches|
      modifies vars`Watches
      ensures |vars.Watches| == |old(vars.Watches)|
      ensures forall l :: 0 <= l < |vars.Watches| ==>
        vars.Watches[l] == if l in wLits then RelocList(old(vars.Watches)[l], m) else old(vars.Watches)[l]
    {
      hide RelocList;
      ghost var watches := vars.Watches;
      for i := 0 to |wLits|
        invariant |vars.Watches| == |watches|
        invariant forall l :: 0 <= l < |watches| ==> vars.Watches[l] == if l in wLits[..i] then RelocList(watches[l], m) else watches[l]
      {
        var l := wLits[i];
        assert wLits[..i + 1] == wLits[..i] + [l];
        ListTwice(watches[l], m);
        var ws := unlinkList(vars.Watches[l], rMap, m);
        vars.Watches := vars.Watches[l := ws];
      }
      assert wLits[..|wLits|] == wLits;
    }

    /** Takes the marks of the noted literals back. */
    method clearNotes(wLits: seq<Lit>, ghost j: nat)
      requires j <= |wLits| && WMarks(AddVals, wLits[j..]) && forall k :: k in wLits ==> 0 <= Var(k) < |AddVals|
      modifies this`AddVals
      ensures |AddVals| == |old(AddVals)| && forall x :: 0 <= x < |AddVals| ==> AddVals[x] == 0
    {
      WMarksVars(AddVals, wLits[j..]);
      hide Var, WMarks;
      forall x | 0 <= x < |AddVals| && AddVals[x] != 0 ensures exists k :: 0 <= k < |wLits| && Var(wLits[k]) == x {
        var k :| 0 <= k < |wLits[j..]| && Var(wLits[j..][k]) == x;
        assert wLits[j + k] == wLits[j..][k];
      }
      for i := 0 to |wLits|
        invariant |AddVals| == |old(AddVals)|
        invariant forall x :: 0 <= x < |AddVals| && AddVals[x] != 0 ==> exists k :: i <= k < |wLits| && Var(wLits[k]) == x
      {
        AddVals := AddVals[Var(wLits[i]) := 0];
      }
    }

    /** Takes the clauses rms out of the watch lists.  AddLits serves as scratch memory:
      the literals of a clause begun are lost. */
    method Unlink(rms: seq<int>, ghost cls: Cls, ghost n: int)
      requires (forall k :: k in AddLits ==> 2 <= k < n) && forall x :: 0 <= x < |AddVals| ==> AddVals[x] == 0
      requires WatchesOk(cls, vars.Watches, n) && n <= 2 * |AddVals| && ClsOk(n, cls)
      requires forall p :: p in rms ==> p in cls && |cls[p]| >= 2 && Stored(cdat.D, p, cls[p])
      modifies this`AddLits, this`AddVals, vars`Watches
      ensures |AddVals| == |old(AddVals)| && AddLits == [] && forall x :: 0 <= x < |AddVals| ==> AddVals[x] == 0
      ensures vars.Watches == RelocLists(old(vars.Watches), Gone(rms))
    {
      hide WMarks, RelocLists, RelocList, WatchesOk, Var, Stored, ClsOk;
      UnlinkLits(cls, n, rms);
      WatchSize(cls, vars.Watches, n);
      ghost var watches, m := vars.Watches, Gone(rms);
      var wLits := noteAll(rms, cls);
      var rMap := SetOf(rms);
      assert forall k :: k in wLits ==> 2 <= k < n;
      assert forall i :: 0 <= i < |wLits| ==> wLits[i] in wLits;
      filterAll(wLits, rMap, m);
      UnlinkAll(cls, watches, n, vars.Watches, wLits, rms);
      VarsFit(wLits, n, |AddVals|);
      clearNotes(wLits, |AddLits|);
      AddLits := [];
    }
  }

  lemma SimplifiedNone(vals: seq<int>)
    ensures Simplified(vals, [], [])
  {
  }

  lemma SimplifiedKeep(vals: seq<int>, ms: seq<Lit>, kept: seq<Lit>, m: Lit)
    requires Simplified(vals, ms, kept) && 2 <= m < |vals| && vals[m] == 0 && forall k :: k in kept ==> Var(k) != Var(m)
    ensures Simplified(vals, ms + [m], kept + [m])
  {
  }

  lemma SimplifiedDrop(vals: seq<int>, ms: seq<Lit>, kept: seq<Lit>, m: Lit)
    requires Simplified(vals, ms, kept) && 2 <= m < |vals| && (m in kept || vals[m] == -1)
    ensures Simplified(vals, ms + [m], kept)
  {
  }

  lemma SimplifiedFrom(vals: seq<int>, ms: seq<Lit>, i: int, kept: seq<Lit>)
    requires 0 <= i <= |ms| && Simplified(vals, ms[..i], kept)
    ensures forall k :: k in kept ==> k in ms
  {
  }

  lemma MarksVars(aVals: seq<int>, ms: seq<Lit>, j: int)
    requires 0 <= j <= |ms| && Marks(aVals, ms[..j])
    ensures forall x :: 0 <= x < |aVals| && aVals[x] != 0 ==> exists k :: 0 <= k < |ms| && Var(ms[k]) == x
  {
  }

  lemma SimplifiedOk(vals: seq<int>, ms: seq<Lit>, kept: seq<Lit>)
    requires Simplified(vals, ms, kept)
    ensures ClauseOk(|vals|, kept)
  {
    forall i | 0 <= i < |kept| ensures 2 <= kept[i] < |vals| {
      assert kept[i] in kept;
    }
  }

  lemma MarksNone(aVals: seq<int>)
    requires forall x :: 0 <= x < |aVals| ==> aVals[x] == 0
    ensures Marks(aVals, [])
  {
  }

  lemma InLists(cls: Cls, added: seq<int>, learnts: seq<int>, rmq: seq<int>)
    requires ListsOk(cls, added, learnts, rmq)
    ensures forall p :: p in added ==> p in cls
    ensures forall p :: p in learnts ==> p in cls
  {
    forall p | p in added || p in learnts ensures p in cls {
      assert p in multiset(added) + multiset(learnts) + multiset(rmq);
      assert p in multiset(cls.Keys);
    }
  }

  /** The words when the clauses ps have cooled down one after the other. */
  function CoolAll(d: seq<int>, ps: seq<int>): (r: seq<int>)
    ensures |r| == |d|
  {
    if |ps| == 0 then d
    else
      var r := CoolAll(d, ps[..|ps| - 1]);
      var k := ps[|ps| - 1] - 1;
      if 0 <= k < |r| then r[k := Cooled(r[k])] else r
  }

  lemma CoolNone(d: seq<int>)
    ensures CoolAll(d, []) == d
  {
  }

  lemma CoolNext(d: seq<int>, ps: seq<int>, p: int)
    requires 1 <= p <= |d|
    ensures var r := CoolAll(d, ps); |r| == |d| && CoolAll(d, ps + [p]) == r[p - 1 := Cooled(r[p - 1])]
  {
  }

  lemma NoNull(n: int, c: seq<Lit>)
    requires ClauseOk(n, c)
    ensures NULL !in c && forall i :: 0 <= i < |c| ==> 0 <= c[i] < n
  {
  }

  /** A new place is in none of the lists. */
  lemma LiveNew(cls: Cls, added: seq<int>, learnts: seq<int>, rmq: seq<int>, p: int, c: seq<Lit>)
    requires ListsOk(cls, added, learnts, rmq) && p !in cls
    ensures p !in rmq && p !in added && p !in learnts
    ensures ListsOk(cls[p := c], added, learnts + [p], rmq) && ListsOk(cls[p := c], added + [p], learnts, rmq)
    ensures cls[p := c] - SetOf(rmq) == (cls - SetOf(rmq))[p := c]
  {
    assert cls[p := c].Keys == cls.Keys + {p};
    assert p !in multiset(cls.Keys);
    assert p !in multiset(added) + multiset(learnts) + multiset(rmq);
    assert multiset(learnts + [p]) == multiset(learnts) + multiset{p};
    assert multiset(added + [p]) == multiset(added) + multiset{p};
    assert multiset(cls.Keys + {p}) == multiset(cls.Keys) + multiset{p};
    assert p in rmq <==> p in multiset(rmq);
    assert p in added <==> p in multiset(added);
    assert p in learnts <==> p in multiset(learnts);
  }

  /** Reordering literals changes no list. */
  lemma ReorderedLive(cls: Cls, cls': Cls, added: seq<int>, learnts: seq<int>, rmq: seq<int>)
    requires Reordered(cls, cls')
    ensures ListsOk(cls, added, learnts, rmq) ==> ListsOk(cls', added, learnts, rmq)
    ensures Reordered(cls - SetOf(rmq), cls' - SetOf(rmq))
  {
  }

  /** Changing a clause in use changes nothing else that is in use. */
  lemma LiveUpdate(cls: Cls, dead: set<int>, q: int, c: seq<Lit>)
    requires q in cls && q !in dead
    ensures cls[q := c] - dead == (cls - dead)[q := c]
  {
  }

  // ---- unlinking ----

  /** The literals noted, each once, are marked by their signs, 2 for both. */
  ghost predicate WMarks(wVals: seq<int>, wLits: seq<Lit>) {
    && (forall m :: m in wLits ==> 0 <= Var(m) < |wVals|)
    && (forall m: Lit :: 0 <= Var(m) < |wVals| ==> (m in wLits <==> wVals[Var(m)] == 2 || wVals[Var(m)] == Sign(m)))
    && (forall i, j :: 0 <= i < j < |wLits| ==> wLits[i] != wLits[j])
    && (forall x :: 0 <= x < |wVals| ==> wVals[x] in {-1, 0, 1, 2})
  }

  lemma WMarkAdd(wVals: seq<int>, wLits: seq<Lit>, m: Lit)
    requires WMarks(wVals, wLits) && 0 <= Var(m) < |wVals| && m !in wLits
    ensures WMarks(wVals[Var(m) := if wVals[Var(m)] == 0 then Sign(m) else 2], wLits + [m])
  {
  }

  lemma WMarksNone(wVals: seq<int>)
    requires forall x :: 0 <= x < |wVals| ==> wVals[x] == 0
    ensures WMarks(wVals, [])
  {
  }

  lemma VarsFit(ms: seq<Lit>, n: int, w: int)
    requires (forall k :: k in ms ==> 2 <= k < n) && n <= 2 * w
    ensures forall k :: k in ms ==> 0 <= Var(k) < w
  {
  }

  lemma WMarksVars(wVals: seq<int>, wLits: seq<Lit>)
    requires WMarks(wVals, wLits)
    ensures forall k :: 0 <= k < |wLits| ==> 0 <= Var(wLits[k]) < |wVals|
    ensures forall x :: 0 <= x < |wVals| && wVals[x] != 0 ==> exists k :: 0 <= k < |wLits| && Var(wLits[k]) == x
  {
    forall x | 0 <= x < |wVals| && wVals[x] != 0 ensures exists k :: 0 <= k < |wLits| && Var(wLits[k]) == x {
      var m := Mk(x, wVals[x] != -1);
      assert Var(m) == x && m in wLits;
      var k :| 0 <= k < |wLits| && wLits[k] == m;
      assert Var(wLits[k]) == x;
    }
  }

  lemma WatchSize(cls: Cls, watches: Lists, n: int)
    requires WatchesOk(cls, watches, n)
    ensures |watches| == n
  {
  }

  lemma UnlinkLits(cls: Cls, n: int, rms: seq<int>)
    requires ClsOk(n, cls) && forall p :: p in rms ==> p in cls && |cls[p]| >= 2
    ensures forall p :: p in rms ==> 2 <= cls[p][0] < n && 2 <= cls[p][1] < n && 0 <= 2 * Var(cls[p][0]) < n && 0 <= 2 * Var(cls[p][1]) < n
  {
  }

  /** Lists of literals that were not noted name no removed clause. */
  lemma UnlinkAll(cls: Cls, watches: Lists, n: int, ws: Lists, wLits: seq<Lit>, rms: seq<int>)
    requires WatchesOk(cls, watches, n) && |ws| == n
    requires forall p :: p in rms ==> p in cls && |cls[p]| >= 2 && cls[p][0] in wLits && cls[p][1] in wLits
    requires forall l :: 0 <= l < n ==> ws[l] == if l in wLits then RelocList(watches[l], Gone(rms)) else watches[l]
    requires forall l :: l in wLits ==> l >= 2
    ensures ws == RelocLists(watches, Gone(rms))
  {
    hide RelocList, EntryOk;
    var m := Gone(rms);
    forall l | 0 <= l < n ensures ws[l] == RelocLists(watches, m)[l] {
      if l >= 2 && l !in wLits {
        assert ListOk(cls, l, watches[l]);
        forall k | 0 <= k < |watches[l]| ensures watches[l][k].c !in m {
          assert InW(watches[l], watches[l][k].c);
          assert Watched(cls, watches[l][k].c, l);
        }
        ListSame(watches[l], m);
      }
    }
  }
}
