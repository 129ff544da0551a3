/** The state of the search as a value, and what each step of Solve keeps of it
  (internal/xo/s.go:192-304). */
module Search {
  import opened Lits
  import opened Assignment
  import opened Clauses
  import opened Watching
  import opened Propagation
  import opened FlatStore
  import opened Relocation
  import opened Guesses
  import opened Resolution
  import opened Soundness
  import opened Progress

  datatype State = State(
    a: Asn,
    cls: Cls,          // clauses in use
    added: set<int>,   // those given by the user
    full: set<int>,    // those for which propagation is complete
    bot: int,          // an empty clause, or 0
    ws: Lists,
    seen: seq<bool>,   // the marks of conflict analysis
    pos: seq<int>,     // per variable: place in the heap, or -1
    max: int)          // the largest variable in use

  /** Every unassigned variable in use is on the heap, which holds variables only. */
  ghost predicate HeapOk(vals: seq<int>, pos: seq<int>, max: int) {
    && 0 <= max && 2 * max + 1 < |vals| && |vals| <= 2 * |pos|
    && forall u {:trigger pos[u]} :: 0 <= u < |pos| ==>
         (1 <= u <= max && vals[2 * u] == 0 ==> pos[u] != -1) && (pos[u] != -1 ==> 1 <= u && 2 * u + 1 < |vals|)
  }

  /** The stored clauses speak of variables in use only. */
  ghost predicate InMax(cls: Cls, max: int) {
    AllBound(cls, 2 * max + 1)
  }

  ghost predicate SeenFits(a: Asn, seen: seq<bool>) {
    Sizes(a) && |seen| == |a.reasons| && SeenOk(a, seen, [], [])
  }

  /** What holds of every state, whatever is propagated. */
  ghost predicate Good(f: set<seq<Lit>>, s: State) {
    && Faithful(f, s.a, s.cls, s.added, s.bot) && SeenFits(s.a, s.seen)
    && HeapOk(s.a.vals, s.pos, s.max) && InMax(s.cls, s.max)
  }

  ghost predicate Settled(s: State, h: int) {
    PropOk(s.a, s.cls, s.full, s.ws, h, 0, {}) && s.added <= s.full
  }

  ghost predicate Low(s: State) {
    LowOk(s.a, s.cls, s.full, s.ws) && s.added <= s.full
  }

  /** Clause c is false, and some of its literals became so at the current level. */
  ghost predicate Clash(s: State, c: int) {
    Low(s) && c in s.cls && AllFalse(s.a, s.cls[c]) && exists m :: m in s.cls[c] && FalseNow(s.a, m)
  }

  /** The literals are true since level l. */
  ghost predicate Held(a: Asn, ms: seq<Lit>, l: int)
    requires Sizes(a)
  {
    forall m :: m in ms ==> LitOk(a, m) && a.vals[m] == 1 && a.levels[Var(m)] <= l
  }

  /** The assumptions hold, and up to their level l nothing else was decided. */
  ghost predicate Under(a: Asn, asked: seq<Lit>, l: int) {
    Sizes(a) && 0 <= l <= a.level && Held(a, asked, l) && DecisionsIn(a, asked, l)
  }

  lemma SettledParts(s: State, h: int)
    requires Settled(s, h)
    ensures Low(s) && AsnOk(s.a) && Core(s.a, s.cls) && WatchesOk(s.cls, s.ws, |s.a.vals|) && s.added <= s.full <= s.cls.Keys
    ensures Sizes(s.a) && ReasonsOk(s.a, s.cls)
  {
    ConflictLow(s.a, s.cls, s.full, s.ws, h, 0, {});
  }

  lemma LowParts(s: State)
    requires Low(s)
    ensures AsnOk(s.a) && Core(s.a, s.cls) && WatchesOk(s.cls, s.ws, |s.a.vals|) && s.added <= s.full <= s.cls.Keys
    ensures Sizes(s.a) && ReasonsOk(s.a, s.cls)
  {
  }

  lemma GoodParts(f: set<seq<Lit>>, s: State)
    requires Good(f, s)
    ensures Sizes(s.a) && |s.seen| == |s.a.reasons| && SeenOk(s.a, s.seen, [], []) && Sound(f, s.cls) && BotOk(s.cls, s.bot)
    ensures Represents(f, s.a, s.cls, s.added)
    ensures 0 <= s.max && 2 * s.max + 1 < |s.a.vals|
  {
  }

  // ---- propagating ----

  lemma SeenMore(a: Asn, b: Asn, seen: seq<bool>)
    requires AsnOk(a) && AsnOk(b) && Sizes(a) && Sizes(b) && |a.vals| == |b.vals| && ZeroKept(a, b) && SeenFits(a, seen)
    ensures SeenFits(b, seen)
  {
    hide AsnOk, Not;
    forall n: Lit | LitOk(b, n) && seen[Var(n)]
      ensures b.vals[n] != 0 && (b.vals[n] == -1 ==> b.levels[Var(n)] == 0)
    {
      SeenZero(a, seen, n);
      FlipVals(b, n);
    }
  }

  lemma SeenZero(a: Asn, seen: seq<bool>, n: Lit)
    requires AsnOk(a) && SeenFits(a, seen) && LitOk(a, n) && seen[Var(n)]
    ensures TrueAtZero(a, n) || TrueAtZero(a, Not(n))
  {
    FlipVals(a, n);
    assert a.vals[n] != 0;
    assert a.vals[Not(n)] != 0;
  }

  lemma HeapMore(a: Asn, b: Asn, pos: seq<int>, max: int)
    requires AsnOk(a) && AsnOk(b) && Extends(a, b) && HeapOk(a.vals, pos, max)
    ensures HeapOk(b.vals, pos, max)
  {
  }

  lemma ReorderInMax(cls: Cls, cls': Cls, max: int)
    requires Reordered(cls, cls') && InMax(cls, max)
    ensures InMax(cls', max)
  {
    forall p | p in cls' ensures InBound(cls'[p], 2 * max + 1) {
      ReorderedLits(cls, cls', p);
      assert InBound(cls[p], 2 * max + 1);
    }
  }

  lemma PropGood(f: set<seq<Lit>>, s: State, s': State)
    requires Good(f, s) && AsnOk(s.a) && AsnOk(s'.a) && Extends(s.a, s'.a) && Reordered(s.cls, s'.cls)
    requires s' == s.(a := s'.a, cls := s'.cls, ws := s'.ws)
    ensures Good(f, s') && Rank(s.a) <= Rank(s'.a)
  {
    ZeroExtends(s.a, s'.a);
    ExtendsSize(s.a, s'.a);
    WeightPrefix(s.a.lv, s'.a.lv, |s.a.reasons|);
    hide AsnOk, Extends, Reordered, ZeroKept, Sound, Represents, UnitsOk, BotOk, HeapOk, InMax, SeenOk, Weight;
    FaithfulAsn(f, s.a, s'.a, s.cls, s.added, s.bot);
    FaithfulReorder(f, s'.a, s.cls, s'.cls, s.added, s.bot);
    SeenMore(s.a, s'.a, s.seen);
    HeapMore(s.a, s'.a, s.pos, s.max);
    ReorderInMax(s.cls, s'.cls, s.max);
  }

  lemma PropUnder(a: Asn, b: Asn, asked: seq<Lit>, l: int)
    requires AsnOk(a) && AsnOk(b) && Extends(a, b) && Under(a, asked, l)
    requires forall k :: |a.trail| <= k < |b.trail| ==> b.why[k] != 0
    ensures Under(b, asked, l)
  {
  }

  lemma StartOf(a: Asn, k: int)
    requires AsnOk(a) && 0 <= k < |a.trail| && a.why[k] == 0
    ensures 1 <= a.lv[k] <= a.level == |a.starts| && a.starts[a.lv[k] - 1] == k
  {
  }

  lemma StartPlace(a: Asn, d: int)
    requires AsnOk(a) && 0 <= d < a.level
    ensures |a.starts| == a.level && 0 <= a.starts[d] < |a.trail|
  {
  }

  /** Propagation decides nothing. */
  lemma ExtendsDecides(a: Asn, b: Asn)
    requires AsnOk(a) && AsnOk(b) && Extends(a, b)
    ensures |b.why| == |b.trail| && forall k :: |a.trail| <= k < |b.trail| ==> b.why[k] != 0
  {
    hide AsnOk;
    AsnSizes(b);
    forall k | |a.trail| <= k < |b.trail| ensures b.why[k] != 0 {
      var d := b.lv[k] - 1;
      if b.why[k] == 0 {
        StartOf(b, k);
        StartPlace(a, d);
      }
    }
  }

  // ---- assigning ----

  lemma HeapAssign(a: Asn, pos: seq<int>, max: int, m: Lit, c: int)
    requires Sizes(a) && ValsOk(a) && LitOk(a, m) && a.vals[m] == 0 && |a.vals| <= 2 * |pos| && 0 <= max && 2 * max + 1 < |a.vals|
    requires forall u {:trigger pos[u]} :: 0 <= u < |pos| ==>
      (1 <= u <= max && a.vals[2 * u] == 0 && u != Var(m) ==> pos[u] != -1) && (pos[u] != -1 ==> 1 <= u && 2 * u + 1 < |a.vals|)
    ensures HeapOk(Assigned(a, m, c).vals, pos, max)
  {
  }

  lemma HeapBut(vals: seq<int>, pos: seq<int>, max: int, x: int)
    requires HeapOk(vals, pos, max)
    ensures |vals| <= 2 * |pos| && 0 <= max && 2 * max + 1 < |vals|
    ensures forall u {:trigger pos[u]} :: 0 <= u < |pos| ==>
      (1 <= u <= max && vals[2 * u] == 0 && u != x ==> pos[u] != -1) && (pos[u] != -1 ==> 1 <= u && 2 * u + 1 < |vals|)
  {
  }

  /** All but the variable x, which was just taken off the heap, is in order. */
  ghost predicate GoodBut(f: set<seq<Lit>>, s: State, x: int) {
    && Faithful(f, s.a, s.cls, s.added, s.bot) && SeenFits(s.a, s.seen) && InMax(s.cls, s.max)
    && |s.a.vals| <= 2 * |s.pos| && 0 <= s.max && 2 * s.max + 1 < |s.a.vals|
    && forall u {:trigger s.pos[u]} :: 0 <= u < |s.pos| ==>
         && (1 <= u <= s.max && s.a.vals[2 * u] == 0 && u != x ==> s.pos[u] != -1)
         && (s.pos[u] != -1 ==> 1 <= u && 2 * u + 1 < |s.a.vals|)
  }

  lemma AssignGood(f: set<seq<Lit>>, s: State, m: Lit, c: int)
    requires GoodBut(f, s, Var(m)) && AsnOk(s.a) && LitOk(s.a, m) && s.a.vals[m] == 0
    ensures Good(f, s.(a := Assigned(s.a, m, c)))
  {
    var b := Assigned(s.a, m, c);
    AssignKeeps(s.a, m, c);
    ZeroAssign(s.a, m, c);
    HeapAssign(s.a, s.pos, s.max, m, c);
    hide AsnOk, ZeroKept, Sound, Represents, UnitsOk, BotOk, HeapOk, InMax, SeenOk;
    FaithfulAsn(f, s.a, b, s.cls, s.added, s.bot);
    SeenMore(s.a, b, s.seen);
  }

  lemma AssignUnit(f: set<seq<Lit>>, s: State, m: Lit, c: int)
    requires Good(f, s) && AsnOk(s.a) && LitOk(s.a, m) && s.a.vals[m] == 0
    ensures Good(f, s.(a := Assigned(s.a, m, c)))
  {
    HeapBut(s.a.vals, s.pos, s.max, Var(m));
    AssignGood(f, s, m, c);
  }

  /** Assigning keeps propagation in order: a decision once all is propagated, or a
    literal that a clause forces. */
  lemma AssignSettled(s: State, h: int, m: Lit, c: int)
    requires Settled(s, h) && CanAssign(s.a, s.cls, m, c) && (c == 0 ==> h == |s.a.trail|)
    ensures Settled(s.(a := Assigned(s.a, m, c)), h)
  {
    hide WatchesOk, BlockOk;
    AssignCore(s.a, s.cls, m, c);
    AssignBlockOk(s.a, s.cls, s.full, h, 0, {}, m, c);
    hide Core;
  }

  lemma AssignUnder(a: Asn, asked: seq<Lit>, l: int, m: Lit, c: int)
    requires AsnOk(a) && LitOk(a, m) && a.vals[m] == 0 && Under(a, asked, l)
    ensures Under(Assigned(a, m, c), asked, l)
  {
    var b := Assigned(a, m, c);
    hide LevOk, TrailOk, NotesOk;
    forall n | n in asked ensures LitOk(b, n) && b.vals[n] == 1 && b.levels[Var(n)] <= l {
      FlipVals(a, m);
      SameVar(m, n);
    }
  }

  lemma SameVar(m: Lit, n: Lit)
    ensures Var(m) == Var(n) <==> n == m || n == Not(m)
  {
  }

  /** A decision on the assumption m opens the next level. */
  lemma AssumeUnder(a: Asn, held: seq<Lit>, m: Lit)
    requires AsnOk(a) && LitOk(a, m) && a.vals[m] == 0 && Under(a, held, a.level)
    ensures var b := Assigned(a, m, 0); b.level == a.level + 1 && Under(b, held + [m], b.level)
  {
    hide AsnOk;
    AsnSizes(a);
    AssignUnder(a, held, a.level, m, 0);
    AllLevels(a);
    AssignedHolds(a, m, 0);
  }

  lemma AssignedHolds(a: Asn, m: Lit, c: int)
    requires Sizes(a) && LitOk(a, m)
    ensures var b := Assigned(a, m, c); LitOk(b, m) && b.vals[m] == 1 && b.levels[Var(m)] == if c == 0 then a.level + 1 else a.level
  {
  }

  /** The assumption m holds already. */
  lemma HoldsUnder(a: Asn, held: seq<Lit>, m: Lit)
    requires AsnOk(a) && LitOk(a, m) && a.vals[m] == 1 && Under(a, held, a.level)
    ensures Under(a, held + [m], a.level)
  {
  }

  // ---- going back ----

  /** A variable that was unassigned had its place beyond the cut. */
  lemma CutGone(a: Asn, b: Asn, k: int, tgt: int, u: int)
    requires AsnOk(a) && IsCut(a, b, k, tgt) && 1 <= u < |a.reasons| && a.vals[2 * u] != 0
    ensures |a.vals| == |b.vals| == 2 * |a.reasons|
    ensures b.vals[2 * u] == 0 ==> exists j :: k <= j < |a.trail| && Var(a.trail[j]) == u
  {
    PlaceOf(a, 2 * u);
    hide LevOk, ValsOk, TrailOk, NotesOk;
    if b.vals[2 * u] == 0 {
      var j := a.pos[Var(2 * u)];
      SameVar(2 * u, a.trail[j]);
      assert k <= j < |a.trail| && Var(a.trail[j]) == u;
    }
  }

  lemma CutHeap(a: Asn, b: Asn, k: int, tgt: int, pos: seq<int>, pos': seq<int>, max: int)
    requires AsnOk(a) && IsCut(a, b, k, tgt) && HeapOk(a.vals, pos, max) && |pos'| == |pos|
    requires forall u :: 0 <= u < |pos| && pos[u] != -1 ==> pos'[u] != -1
    requires forall u :: 0 <= u < |pos'| && pos'[u] != -1 ==> 1 <= u && 2 * u + 1 < |a.vals|
    requires forall j :: k <= j < |a.trail| ==> 0 <= Var(a.trail[j]) < |pos'| && pos'[Var(a.trail[j])] != -1
    ensures HeapOk(b.vals, pos', max)
  {
    CutSizes(a, b, k, tgt);
    AsnSizes(a);
    hide AsnOk, IsCut;
    forall u | 0 <= u < |pos'| && 1 <= u <= max && b.vals[2 * u] == 0 ensures pos'[u] != -1 {
      if a.vals[2 * u] != 0 {
        CutGone(a, b, k, tgt, u);
      }
    }
  }

  lemma CutGood(f: set<seq<Lit>>, s: State, s': State, k: int, tgt: int)
    requires Good(f, s) && AsnOk(s.a) && IsCut(s.a, s'.a, k, tgt) && HeapOk(s'.a.vals, s'.pos, s.max)
    requires s' == s.(a := s'.a, pos := s'.pos)
    ensures AsnOk(s'.a) && Good(f, s')
  {
    CutKeeps(s.a, s'.a, k, tgt);
    CutSizes(s.a, s'.a, k, tgt);
    ZeroCut(s.a, s'.a, k, tgt);
    hide AsnOk, ZeroKept, Sound, Represents, UnitsOk, BotOk, HeapOk, InMax, SeenOk;
    FaithfulAsn(f, s.a, s'.a, s.cls, s.added, s.bot);
    SeenMore(s.a, s'.a, s.seen);
  }

  lemma CutSizes(a: Asn, b: Asn, k: int, tgt: int)
    requires AsnOk(a) && IsCut(a, b, k, tgt)
    ensures |a.vals| == |b.vals| && |a.reasons| == |b.reasons| && 0 <= k == |b.trail| && b.level == tgt
  {
  }

  lemma CutSettled(s: State, s': State, k: int, tgt: int)
    requires Low(s) && IsCut(s.a, s'.a, k, tgt) && tgt < s.a.level && s' == s.(a := s'.a, pos := s'.pos)
    ensures Settled(s', k)
  {
    CutProp(s.a, s'.a, s.cls, s.full, s.ws, k, tgt);
  }

  lemma CutUnder(a: Asn, b: Asn, k: int, tgt: int, asked: seq<Lit>, l: int)
    requires AsnOk(a) && IsCut(a, b, k, tgt) && Under(a, asked, l) && 0 <= l <= tgt
    ensures Under(b, asked, l)
  {
    CutSizes(a, b, k, tgt);
    CutKeeps(a, b, k, tgt);
    AsnSizes(b);
    CutDecisions(a, b, k, tgt, asked, l);
    hide AsnOk, IsCut, DecisionsIn;
    forall m | m in asked ensures LitOk(b, m) && b.vals[m] == 1 && b.levels[Var(m)] <= l {
      CutStays(a, b, k, tgt, m);
    }
  }

  lemma CutDecisions(a: Asn, b: Asn, k: int, tgt: int, asked: seq<Lit>, l: int)
    requires AsnOk(a) && IsCut(a, b, k, tgt) && DecisionsIn(a, asked, l) && Sizes(b)
    ensures DecisionsIn(b, asked, l)
  {
  }

  // ---- learning ----

  lemma LearnLow(s: State, p: int, c: seq<Lit>)
    requires Low(s) && p > 0 && p !in s.cls && ClauseOk(|s.a.vals|, c)
    ensures Low(s.(cls := s.cls[p := c], ws := WithWatches(s.ws, p, c)))
  {
    AddWatches(s.cls, s.ws, |s.a.vals|, p, c);
    LearnCore(s.a, s.cls, p, c);
    hide Core, WatchesOk, ClauseOk, Blocked;
    var cls' := s.cls[p := c];
    forall q, l | q in s.full && LitOk(s.a, l) && Watched(cls', q, l) && s.a.vals[l] == -1 && s.a.levels[Var(l)] < s.a.level
      ensures Blocked(s.a, cls'[q], s.a.levels[Var(l)])
    {
      assert Watched(s.cls, q, l);
    }
  }

  lemma LearnCore(a: Asn, cls: Cls, p: int, c: seq<Lit>)
    requires Core(a, cls) && p > 0 && p !in cls && ClauseOk(|a.vals|, c)
    ensures Core(a, cls[p := c])
  {
  }

  lemma LearnGood(f: set<seq<Lit>>, s: State, s': State, p: int, c: seq<Lit>)
    requires Good(f, s) && p !in s.cls && s.added <= s.cls.Keys && Entailed(s.cls, LitSet(c)) && |c| >= 1
    requires s' == s.(cls := s.cls[p := c], ws := s'.ws, seen := s'.seen, pos := s'.pos)
    requires SeenFits(s.a, s'.seen) && SameVars(s.pos, s'.pos) && InBound(c, 2 * s.max + 1)
    ensures Good(f, s')
  {
    hide Faithful, Entailed, LitSet, SeenOk, InBound;
    FaithfulLearn(f, s.a, s.cls, s.added, s.bot, p, c);
  }

  /** After the jump back the derived clause forces its first literal. */
  lemma JumpUnit(a: Asn, b: Asn, k: int, tgt: int, cls: Cls, p: int, c: seq<Lit>, target: int)
    requires AsnOk(a) && IsCut(a, b, k, tgt) && LearntOk(a, c, target) && target <= tgt < a.level
    requires p in cls && cls[p] == c
    ensures CanAssign(b, cls, c[0], p)
  {
    CutStays(a, b, k, tgt, c[0]);
    CutSizes(a, b, k, tgt);
    hide AsnOk;
    forall i | 1 <= i < |c| ensures LitOk(b, c[i]) && b.vals[c[i]] == -1 {
      CutStays(a, b, k, tgt, c[i]);
    }
    assert forall i :: 0 <= i < |c[1..]| ==> c[1..][i] == c[i + 1];
  }

  /** The second literal of a derived clause, which is watched but chosen without regard
    to levels, has a true one beside it, assigned no later, exactly if it is at the
    level that the search jumped back to. */
  lemma JumpBlocked(a: Asn, b: Asn, k: int, tgt: int, p: int, c: seq<Lit>, target: int)
    requires AsnOk(a) && IsCut(a, b, k, tgt) && LearntOk(a, c, target) && target <= tgt < a.level && |c| >= 2 && p != 0
    ensures Sizes(b) && LitOk(b, c[0])
    ensures var t := Assigned(b, c[0], p); Sizes(t) && LitOk(t, c[1]) && t.vals[c[1]] == -1 && c[1] in c
    ensures var t := Assigned(b, c[0], p); Blocked(t, c, t.levels[Var(c[1])]) <==> a.levels[Var(c[1])] == tgt
  {
    JumpLits(a, b, k, tgt, c, target);
    AssignedHolds(b, c[0], p);
    hide AsnOk, IsCut, LearntOk, Var, Not;
    LitFacts();
    assert c[1] in c && c[0] in c;
  }

  /** After the jump the first literal of the clause is unassigned and the others are false as before. */
  lemma JumpLits(a: Asn, b: Asn, k: int, tgt: int, c: seq<Lit>, target: int)
    requires AsnOk(a) && IsCut(a, b, k, tgt) && LearntOk(a, c, target) && target <= tgt < a.level
    ensures Sizes(b) && b.level == tgt && LitOk(b, c[0]) && b.vals[c[0]] == 0
    ensures forall i {:trigger c[i]} :: 1 <= i < |c| ==>
      LitOk(b, c[i]) && b.vals[c[i]] == -1 && b.levels[Var(c[i])] == a.levels[Var(c[i])] <= tgt && Var(c[i]) != Var(c[0])
  {
    CutSizes(a, b, k, tgt);
    CutKeeps(a, b, k, tgt);
    AsnSizes(b);
    CutStays(a, b, k, tgt, c[0]);
    hide AsnOk, IsCut;
    forall i | 1 <= i < |c|
      ensures LitOk(b, c[i]) && b.vals[c[i]] == -1 && b.levels[Var(c[i])] == a.levels[Var(c[i])]
    {
      CutStays(a, b, k, tgt, c[i]);
    }
  }

  /** Hence propagation is complete for the derived clause as it is for added ones
    exactly in that case. */
  lemma JumpFull(a: Asn, s: State, k: int, tgt: int, p: int, c: seq<Lit>, target: int)
    requires AsnOk(a) && IsCut(a, s.a, k, tgt) && LearntOk(a, c, target) && target <= tgt < a.level && |c| >= 2
    requires Settled(s, k) && p in s.cls && s.cls[p] == c && p > 0
    ensures Sizes(s.a) && LitOk(s.a, c[0])
    ensures Settled(s.(a := Assigned(s.a, c[0], p), full := s.full + {p}), k) <==> a.levels[Var(c[1])] == tgt
  {
    hide AsnOk, IsCut, LearntOk, Blocked, Assigned, Settled, Core;
    SettledParts(s, k);
    JumpBlocked(a, s.a, k, tgt, p, c, target);
    JumpUnit(a, s.a, k, tgt, s.cls, p, c, target);
    AssignSettled(s, k, c[0], p);
    JumpPlace(a, s.a, k, tgt, p, c, target);
    SettledFull(s.(a := Assigned(s.a, c[0], p)), k, p);
  }

  /** Every false watched literal of c whose place is below h has a true one beside it. */
  ghost predicate Guarded(a: Asn, c: seq<Lit>, h: int)
    requires Sizes(a)
  {
    forall l :: LitOk(a, l) && WatchedIn(c, l) && a.vals[l] == -1 && a.pos[Var(l)] < h ==> Blocked(a, c, a.levels[Var(l)])
  }

  lemma SettledFull(s: State, h: int, p: int)
    requires Settled(s, h) && p in s.cls && Sizes(s.a)
    ensures Settled(s.(full := s.full + {p}), h) <==> Guarded(s.a, s.cls[p], h)
  {
    hide Core, WatchesOk, QueueOk, Blocked;
    if Guarded(s.a, s.cls[p], h) {
      forall q, l | q in s.full + {p} && LitOk(s.a, l) && Watched(s.cls, q, l) && s.a.vals[l] == -1 && s.a.pos[Var(l)] < h
        ensures Blocked(s.a, s.cls[q], s.a.levels[Var(l)])
      {
      }
    }
    if Settled(s.(full := s.full + {p}), h) {
      forall l | LitOk(s.a, l) && WatchedIn(s.cls[p], l) && s.a.vals[l] == -1 && s.a.pos[Var(l)] < h
        ensures Blocked(s.a, s.cls[p], s.a.levels[Var(l)])
      {
        assert Watched(s.cls, p, l);
      }
    }
  }

  /** The second literal lies before the place of the first, where the jump led. */
  lemma JumpPlace(a: Asn, b: Asn, k: int, tgt: int, p: int, c: seq<Lit>, target: int)
    requires AsnOk(a) && IsCut(a, b, k, tgt) && LearntOk(a, c, target) && target <= tgt < a.level && |c| >= 2 && p != 0
    ensures Sizes(b) && LitOk(b, c[0])
    ensures var t := Assigned(b, c[0], p); Sizes(t) && t.vals[c[0]] == 1 && t.pos[Var(c[1])] < k
  {
    JumpLits(a, b, k, tgt, c, target);
    CutSizes(a, b, k, tgt);
    CutKeeps(a, b, k, tgt);
    PlaceOf(b, c[1]);
    hide AsnOk, IsCut, LearntOk;
    AssignedHolds(b, c[0], p);
  }

  lemma LearntRoom(a: Asn, b: Asn, k: int, tgt: int, p: int, c: seq<Lit>, target: int)
    requires AsnOk(a) && IsCut(a, b, k, tgt) && LearntOk(a, c, target) && target <= tgt < a.level
    requires Sizes(b) && LitOk(b, c[0]) && p != 0
    ensures var t := Assigned(b, c[0], p); Sizes(t) && t.level == tgt && forall i :: 0 <= i < |c| ==> 0 <= Var(c[i]) < |t.levels|
  {
    CutSizes(a, b, k, tgt);
  }

  lemma JumpLevel(a: Asn, b: Asn, k: int, tgt: int, p: int, c: seq<Lit>, target: int)
    requires AsnOk(a) && IsCut(a, b, k, tgt) && LearntOk(a, c, target) && target <= tgt < a.level && |c| >= 2 && p != 0
    ensures Sizes(b) && LitOk(b, c[0])
    ensures var t := Assigned(b, c[0], p); t.level == tgt && 0 <= Var(c[1]) < |t.levels| && t.levels[Var(c[1])] == a.levels[Var(c[1])]
  {
    JumpLits(a, b, k, tgt, c, target);
  }

  /** It happens that the second literal is below that level: three decisions, and a
    derived clause with the literals of levels 3, 1 and 2 in this order. */
  lemma JumpNotBlocked() returns (a: Asn, b: Asn, c: seq<Lit>)
    ensures AsnOk(a) && IsCut(a, b, 2, 2) && LearntOk(a, c, 2) && 2 < a.level && |c| == 3
    ensures Sizes(b) && LitOk(b, c[0])
    ensures var t := Assigned(b, c[0], 1); Sizes(t) && LitOk(t, c[1]) && !Blocked(t, c, t.levels[Var(c[1])])
  {
    var d := TwoDecided();
    hide AsnOk, IsCut, LearntOk, Blocked;
    AssignKeeps(d, 6, 0);
    a, c := Assigned(d, 6, 0), [7, 3, 5];
    b := d.(pos := a.pos);
    assert a.vals == [0, 0, 1, -1, 1, -1, 1, -1, 0, 0] && a.levels == [0, 1, 2, 3, 0];
    ThreeLearnt(a, c);
    CutOne(d, 6);
    hide Assigned;
    JumpBlocked(a, b, 2, 2, 1, c, 2);
  }

  lemma ThreeLearnt(a: Asn, c: seq<Lit>)
    requires Sizes(a) && a.vals == [0, 0, 1, -1, 1, -1, 1, -1, 0, 0] && a.levels == [0, 1, 2, 3, 0] && a.level == 3 && c == [7, 3, 5]
    ensures LearntOk(a, c, 2)
  {
  }

  /** Undoing the decision just made. */
  lemma CutOne(a: Asn, m: Lit)
    requires AsnOk(a) && LitOk(a, m) && a.vals[m] == 0
    ensures Sizes(a) && var d := Assigned(a, m, 0); IsCut(d, a.(pos := d.pos), |a.trail|, a.level)
  {
    var d := Assigned(a, m, 0);
    var b := a.(pos := d.pos);
    CutOneVals(a, m);
    AllLevels(a);
    hide ValsOk, TrailOk, NotesOk, Undone;
    assert d.trail[..|a.trail|] == a.trail && d.lv[..|a.trail|] == a.lv && d.why[..|a.trail|] == a.why && d.starts[..a.level] == a.starts;
  }

  lemma CutOneVals(a: Asn, m: Lit)
    requires AsnOk(a) && LitOk(a, m) && a.vals[m] == 0
    ensures Sizes(a) && var d := Assigned(a, m, 0); Undone(d, a.vals, a.levels, a.reasons, |a.trail|)
  {
    hide LevOk, Var, Not;
    LitFacts();
    var d := Assigned(a, m, 0);
    forall t: Lit | LitOk(d, t)
      ensures var gone := d.vals[t] != 0 && d.pos[Var(t)] >= |a.trail|;
        && a.vals[t] == (if gone then 0 else d.vals[t])
        && a.reasons[Var(t)] == (if gone then 0 else d.reasons[Var(t)])
        && (gone || a.levels[Var(t)] == d.levels[Var(t)])
    {
      SameVar(m, t);
      FlipVals(a, m);
      if a.vals[t] != 0 { PlaceOf0(a, t); }
    }
  }

  // ---- collecting ----

  lemma RelocGood(f: set<seq<Lit>>, s: State, s': State, rm: set<int>, m: map<int, int>, x: int)
    requires GoodBut(f, s, x) && s.bot == 0 && Moved(s.cls, s'.cls, rm, m) && s.added <= s.cls.Keys && s.added * rm == {}
    requires s' == s.(a := RelocAsn(s.a, m), cls := s'.cls, added := Image(s.added, m), full := s'.full, ws := s'.ws)
    ensures GoodBut(f, s', x)
  {
    FaithfulReloc(f, s.a, s.cls, s'.cls, s.added, rm, m);
    RelocInMax(s.cls, s'.cls, s.max, rm, m);
    hide Faithful, InMax, Moved, Reloc, SeenOk;
    RelocSeen(s.a, m, s.seen);
  }

  lemma RelocSeen(a: Asn, m: map<int, int>, seen: seq<bool>)
    requires SeenFits(a, seen)
    ensures SeenFits(RelocAsn(a, m), seen)
  {
  }

  lemma RelocInMax(cls: Cls, cls': Cls, max: int, rm: set<int>, m: map<int, int>)
    requires InMax(cls, max) && Moved(cls, cls', rm, m)
    ensures InMax(cls', max)
  {
  }

}
