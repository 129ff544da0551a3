/** What the state of the solver says about the clauses as the user added them:
  every stored clause follows from them, and nothing that was dropped or shortened
  is lost (internal/xo/cdb.go:90-205, internal/xo/s.go:192-304). */
module Soundness {
  import opened Lits
  import opened Assignment
  import opened Clauses
  import opened Watching
  import opened Propagation
  import opened FlatStore
  import opened Relocation
  import opened Database
  import opened Resolution

  ghost predicate Sound(f: set<seq<Lit>>, cls: Cls) {
    forall v :: Models(v, f) ==> ModelsCls(v, cls)
  }

  ghost predicate TrueAtZero(a: Asn, m: Lit)
    requires Sizes(a)
  {
    LitOk(a, m) && a.vals[m] == 1 && a.levels[Var(m)] == 0
  }

  /** The clause always holds, holds at level 0, or holds whenever some stored one does. */
  ghost predicate Represented(a: Asn, cls: Cls, added: set<int>, c: seq<Lit>)
    requires Sizes(a)
  {
    || (exists m :: m in c && (Not(m) in c || TrueAtZero(a, m)))
    || (exists p :: p in added && p in cls && forall n :: n in cls[p] ==> n in c)
  }

  ghost predicate Represents(f: set<seq<Lit>>, a: Asn, cls: Cls, added: set<int>)
    requires Sizes(a)
  {
    forall c :: c in f ==> Represented(a, cls, added, c)
  }

  ghost predicate UnitsOk(a: Asn, cls: Cls, added: set<int>)
    requires Sizes(a)
  {
    forall p :: p in added && p in cls && |cls[p]| == 1 ==> TrueAtZero(a, cls[p][0])
  }

  ghost predicate NoEmpty(cls: Cls) {
    forall p :: p in cls ==> |cls[p]| >= 1
  }

  ghost predicate BotOk(cls: Cls, bot: int) {
    if bot == 0 then NoEmpty(cls) else bot in cls && cls[bot] == []
  }

  /** The stored clauses mean what the clauses f mean. */
  ghost predicate Faithful(f: set<seq<Lit>>, a: Asn, cls: Cls, added: set<int>, bot: int) {
    Sizes(a) && Sound(f, cls) && Represents(f, a, cls, added) && UnitsOk(a, cls, added) && BotOk(cls, bot)
  }

  /** Literals true at level 0 stay so. */
  ghost predicate ZeroKept(a: Asn, b: Asn)
    requires Sizes(a) && Sizes(b)
  {
    forall m :: TrueAtZero(a, m) ==> TrueAtZero(b, m)
  }

  lemma FaithfulAsn(f: set<seq<Lit>>, a: Asn, b: Asn, cls: Cls, added: set<int>, bot: int)
    requires Faithful(f, a, cls, added, bot) && Sizes(b) && ZeroKept(a, b)
    ensures Faithful(f, b, cls, added, bot)
  {
  }

  lemma FaithfulReorder(f: set<seq<Lit>>, a: Asn, cls: Cls, cls': Cls, added: set<int>, bot: int)
    requires Faithful(f, a, cls, added, bot) && Reordered(cls, cls')
    ensures Faithful(f, a, cls', added, bot)
  {
    hide TrueAtZero;
    forall v | Models(v, f) ensures ModelsCls(v, cls') {
      ReorderModels(v, cls, cls');
    }
    forall p | p in cls ensures p in cls' && |cls[p]| == |cls'[p]| && forall m :: m in cls[p] <==> m in cls'[p] {
      ReorderedLits(cls, cls', p);
    }
    hide Reordered, Sound;
    forall c | c in f ensures Represented(a, cls', added, c) {
      assert Represented(a, cls, added, c);
    }
    forall p | p in added && p in cls' && |cls'[p]| == 1 ensures TrueAtZero(a, cls'[p][0]) {
      assert cls'[p][0] in cls[p];
    }
    if bot == 0 {
      forall p | p in cls' ensures |cls'[p]| >= 1 { assert p in cls; }
    }
  }

  lemma ReorderModels(v: Valuation, cls: Cls, cls': Cls)
    requires Reordered(cls, cls') && ModelsCls(v, cls)
    ensures ModelsCls(v, cls')
  {
    forall p | p in cls' ensures Sat(v, cls'[p]) {
      ReorderedLits(cls, cls', p);
      assert Sat(v, cls[p]);
    }
  }

  // ---- what keeps literals true at level 0 ----

  lemma ZeroAssign(a: Asn, m: Lit, c: int)
    requires AsnOk(a) && LitOk(a, m) && a.vals[m] == 0
    ensures Sizes(Assigned(a, m, c)) && ZeroKept(a, Assigned(a, m, c))
  {
    hide Var, Not, IsPos, Mk, LevOk, TrailOk, NotesOk;
    LitFacts();
    assert a.vals[Not(m)] == 0;
  }

  lemma FlipVals(a: Asn, m: Lit)
    requires AsnOk(a) && LitOk(a, m)
    ensures LitOk(a, Not(m)) && a.vals[Not(m)] == -a.vals[m] && Not(Not(m)) == m && Var(Not(m)) == Var(m)
  {
    hide LevOk, TrailOk, NotesOk, Not;
    NotTwice(m, |a.reasons|);
  }

  lemma NotTwice(m: Lit, n: int)
    ensures Not(Not(m)) == m && Var(Not(m)) == Var(m) && (2 <= m < 2 * n ==> 2 <= Not(m) < 2 * n)
  {
  }

  lemma ZeroExtends(a: Asn, b: Asn)
    requires AsnOk(a) && AsnOk(b) && Extends(a, b)
    ensures Sizes(a) && Sizes(b) && ZeroKept(a, b)
  {
  }

  lemma ZeroCut(a: Asn, b: Asn, k: int, tgt: int)
    requires AsnOk(a) && AsnOk(b) && IsCut(a, b, k, tgt)
    ensures Sizes(a) && Sizes(b) && ZeroKept(a, b)
  {
  }

  // ---- clauses come and go ----

  lemma FaithfulLearn(f: set<seq<Lit>>, a: Asn, cls: Cls, added: set<int>, bot: int, p: int, c: seq<Lit>)
    requires Faithful(f, a, cls, added, bot) && Entailed(cls, LitSet(c)) && |c| >= 1 && p !in cls && added <= cls.Keys
    ensures Faithful(f, a, cls[p := c], added, bot)
  {
  }

  /** A completed clause ms of which kept was stored at p. */
  lemma FaithfulAdd(f: set<seq<Lit>>, a: Asn, cls: Cls, added: set<int>, bot: int, ms: seq<Lit>, p: int, kept: seq<Lit>)
    requires Faithful(f, a, cls, added, bot) && AsnOk(a) && ReasonsOk(a, cls) && a.level == 0 && added <= cls.Keys
    requires p > 0 && p !in cls && Simplified(a.vals, ms, kept)
    ensures Sound(f + {ms}, cls[p := kept]) && Represents(f + {ms}, a, cls[p := kept], added + {p})
    ensures UnitsOk(a, cls[p := kept], added) && BotOk(cls[p := kept], if |kept| == 0 then p else bot)
  {
    hide TrueAtZero, AsnOk, ReasonsOk;
    var cls' := cls[p := kept];
    forall v | Models(v, f + {ms}) ensures ModelsCls(v, cls') {
      AddModels(f, a, cls, v, ms, kept);
    }
    hide Sound;
    forall c | c in f + {ms} ensures Represented(a, cls', added + {p}, c) {
      if c == ms {
        assert p in added + {p} && cls'[p] == kept;
        assert forall n :: n in kept ==> n in ms;
      } else {
        assert Represented(a, cls, added, c);
        if p' :| p' in added && p' in cls && forall n :: n in cls[p'] ==> n in c {
          assert cls'[p'] == cls[p'];
        }
      }
    }
  }

  lemma AddModels(f: set<seq<Lit>>, a: Asn, cls: Cls, v: Valuation, ms: seq<Lit>, kept: seq<Lit>)
    requires Sound(f, cls) && Models(v, f + {ms}) && AsnOk(a) && ReasonsOk(a, cls) && a.level == 0 && Simplified(a.vals, ms, kept)
    ensures ModelsCls(v, cls) && Sat(v, kept)
  {
    assert Models(v, f);
    assert ms in f + {ms};
    assert Sat(v, ms);
    var m :| m in ms && Holds(v, m);
    if m !in kept {
      PlaceOf(a, m);
      ZeroFalse(a, cls, v, m);
      assert false;
    }
  }

  /** A completed clause that was not stored. */
  lemma FaithfulDrop(f: set<seq<Lit>>, a: Asn, cls: Cls, added: set<int>, bot: int, ms: seq<Lit>)
    requires Faithful(f, a, cls, added, bot) && AsnOk(a) && a.level == 0
    requires Dropped(a.vals, ms) && forall m :: m in ms ==> m >= 2
    ensures Faithful(f + {ms}, a, cls, added, bot)
  {
  }

  /** The collector's work. */
  lemma FaithfulReloc(f: set<seq<Lit>>, a: Asn, cls: Cls, cls': Cls, added: set<int>, rm: set<int>, m: map<int, int>)
    requires Faithful(f, a, cls, added, 0) && Moved(cls, cls', rm, m) && added <= cls.Keys && added * rm == {}
    ensures Faithful(f, RelocAsn(a, m), cls', Image(added, m), 0)
  {
    var b, added' := RelocAsn(a, m), Image(added, m);
    hide Moved, Reloc, TrueAtZero;
    forall q | q in cls' ensures exists p :: p in cls && p !in rm && Reloc(m, p) == q && cls'[q] == cls[p] {
      var p := MovedOnto(cls, cls', rm, m, q);
    }
    forall p | p in added ensures Reloc(m, p) in cls' && cls'[Reloc(m, p)] == cls[p] && Reloc(m, p) in added' {
      assert p !in rm by { assert p in rm ==> p in added * rm; }
      MovedKeeps(cls, cls', rm, m, p);
    }
    forall n ensures TrueAtZero(a, n) <==> TrueAtZero(b, n) { SameAtZero(a, m, n); }
    MovedModels(f, cls, cls');
    forall c | c in f ensures Represented(b, cls', added', c) {
      assert Represented(a, cls, added, c);
      if p :| p in added && p in cls && forall n :: n in cls[p] ==> n in c {
        assert Reloc(m, p) in added';
      }
    }
    forall q | q in added' && q in cls' && |cls'[q]| == 1 ensures TrueAtZero(b, cls'[q][0]) {
      var p :| p in added && Reloc(m, p) == q;
    }
  }

  lemma SameAtZero(a: Asn, m: map<int, int>, n: Lit)
    requires Sizes(a)
    ensures Sizes(RelocAsn(a, m)) && (TrueAtZero(a, n) <==> TrueAtZero(RelocAsn(a, m), n))
  {
  }

  lemma MovedModels(f: set<seq<Lit>>, cls: Cls, cls': Cls)
    requires Sound(f, cls) && forall q :: q in cls' ==> exists p :: p in cls && cls'[q] == cls[p]
    ensures Sound(f, cls')
  {
  }

  // ---- the answers ----

  /** No model of the clauses satisfies all the literals. */
  ghost predicate Refuted(f: set<seq<Lit>>, ms: seq<Lit>) {
    forall v :: Models(v, f) ==> !AllHold(v, ms)
  }

  ghost predicate DecisionsIn(a: Asn, asked: seq<Lit>, level: int)
    requires Sizes(a)
  {
    forall k :: 0 <= k < |a.trail| && a.why[k] == 0 && a.lv[k] <= level ==> a.trail[k] in asked
  }

  /** Everything on the trail holds in a model that agrees with the assumptions. */
  lemma TrailForced(f: set<seq<Lit>>, a: Asn, cls: Cls, asked: seq<Lit>, v: Valuation, t: Lit)
    requires AsnOk(a) && ReasonsOk(a, cls) && Sound(f, cls) && DecisionsIn(a, asked, a.level)
    requires Models(v, f) && AllHold(v, asked) && LitOk(a, t) && a.vals[t] == -1
    ensures !Holds(v, t)
  {
    PlaceOf(a, t);
    AllLevels(a);
    TrailHolds(a, cls, v, |a.trail|);
    FalseLater(a, v, t, |a.trail|);
  }

  lemma AllLevels(a: Asn)
    requires AsnOk(a)
    ensures forall k :: 0 <= k < |a.trail| ==> a.lv[k] <= a.level
  {
  }

  lemma UnsatConflict(f: set<seq<Lit>>, a: Asn, cls: Cls, x: int, asked: seq<Lit>)
    requires AsnOk(a) && ReasonsOk(a, cls) && Sound(f, cls) && DecisionsIn(a, asked, a.level)
    requires x in cls && AllFalse(a, cls[x])
    ensures Refuted(f, asked)
  {
    forall v | Models(v, f) && AllHold(v, asked) ensures false {
      assert Sat(v, cls[x]);
      var t :| t in cls[x] && Holds(v, t);
      TrailForced(f, a, cls, asked, v, t);
      assert false;
    }
  }

  lemma UnsatFalse(f: set<seq<Lit>>, a: Asn, cls: Cls, m: Lit, asked: seq<Lit>)
    requires AsnOk(a) && ReasonsOk(a, cls) && Sound(f, cls) && DecisionsIn(a, asked, a.level)
    requires m in asked && LitOk(a, m) && a.vals[m] == -1
    ensures Refuted(f, asked)
  {
    forall v | Models(v, f) ensures !AllHold(v, asked) {
      if AllHold(v, asked) {
        TrailForced(f, a, cls, asked, v, m);
      }
    }
  }

  /** The valuation that the assignment describes. */
  ghost function ValOf(vals: seq<int>): Valuation {
    iset x: int | 0 <= 2 * x < |vals| && vals[2 * x] == 1
  }

  lemma ValHolds(a: Asn, m: Lit)
    requires AsnOk(a) && LitOk(a, m)
    ensures a.vals[m] == 1 ==> Holds(ValOf(a.vals), m)
  {
    hide AsnOk;
    if m % 2 == 1 { FlipVals(a, m); }
  }

  ghost predicate SomeTrue(a: Asn, c: seq<Lit>) {
    exists t :: t in c && LitOk(a, t) && a.vals[t] == 1
  }

  /** When nothing is left to propagate and a watched literal of a given clause is
    assigned, the clause has a true literal. */
  lemma WatchedTrue(a: Asn, cls: Cls, added: set<int>, p: int, i: int)
    requires AsnOk(a) && Sizes(a) && BlockOk(a, cls, added, |a.trail|, 0, {}) && p in added && p in cls
    requires 0 <= i < 2 <= |cls[p]| && LitOk(a, cls[p][i]) && -1 <= a.vals[cls[p][i]] <= 1 && a.vals[cls[p][i]] != 0
    ensures SomeTrue(a, cls[p])
  {
    hide AsnOk, Blocked;
    var l := cls[p][i];
    PlaceOf(a, l);
    assert l in cls[p] && Watched(cls, p, l);
    if a.vals[l] == -1 {
      BlockedTrue(a, cls[p], a.levels[Var(l)]);
    }
  }

  lemma BlockedTrue(a: Asn, c: seq<Lit>, d: int)
    requires Sizes(a) && Blocked(a, c, d)
    ensures SomeTrue(a, c)
  {
  }

  lemma PropParts(a: Asn, cls: Cls, added: set<int>, ws: Lists, p: int)
    requires PropOk(a, cls, added, ws, |a.trail|, 0, {}) && p in added
    ensures AsnOk(a) && Sizes(a) && BlockOk(a, cls, added, |a.trail|, 0, {}) && p in cls
    ensures forall i :: 0 <= i < |cls[p]| ==> LitOk(a, cls[p][i]) && -1 <= a.vals[cls[p][i]] <= 1
  {
  }

  lemma UnitTrue(f: set<seq<Lit>>, a: Asn, cls: Cls, added: set<int>, p: int)
    requires Faithful(f, a, cls, added, 0) && p in added && p in cls
    ensures |cls[p]| >= 1 && (|cls[p]| == 1 ==> LitOk(a, cls[p][0]) && a.vals[cls[p][0]] == 1)
  {
  }

  /** Every given clause whose literals are assigned has a true one, once nothing is
    left to propagate. */
  lemma AddedTrue(f: set<seq<Lit>>, a: Asn, cls: Cls, added: set<int>, full: set<int>, ws: Lists, p: int) returns (t: Lit)
    requires PropOk(a, cls, full, ws, |a.trail|, 0, {}) && Faithful(f, a, cls, added, 0) && p in added && added <= full
    requires forall m :: m in cls[p] ==> LitOk(a, m) && a.vals[m] != 0
    ensures p in cls && t in cls[p] && LitOk(a, t) && a.vals[t] == 1
  {
    hide AsnOk, BlockOk, PropOk, Faithful;
    PropParts(a, cls, full, ws, p);
    UnitTrue(f, a, cls, added, p);
    if |cls[p]| == 1 {
      t := cls[p][0];
    } else {
      assert cls[p][0] in cls[p];
      WatchedTrue(a, cls, full, p, 0);
      t :| t in cls[p] && LitOk(a, t) && a.vals[t] == 1;
    }
  }

  /** Propagation is complete for the given clauses, and for the derived ones in full:
    each has a true literal or two that are unassigned, so none is false and none
    forces anything any more. */
  lemma PropComplete(f: set<seq<Lit>>, a: Asn, cls: Cls, added: set<int>, full: set<int>, ws: Lists, p: int)
    requires PropOk(a, cls, full, ws, |a.trail|, 0, {}) && Faithful(f, a, cls, added, 0) && added <= full && p in full
    requires p in added || |cls[p]| >= 2
    ensures p in cls && |cls[p]| >= 1
    ensures SomeTrue(a, cls[p]) || (|cls[p]| >= 2 && forall i :: 0 <= i < 2 ==> LitOk(a, cls[p][i]) && a.vals[cls[p][i]] == 0)
  {
    hide AsnOk, BlockOk, PropOk, Faithful;
    PropParts(a, cls, full, ws, p);
    if p in added { UnitTrue(f, a, cls, added, p); }
    var c := cls[p];
    if |c| == 1 {
      assert c[0] in c;
    } else {
      forall i | 0 <= i < 2 && a.vals[c[i]] != 0 ensures SomeTrue(a, c) { WatchedTrue(a, cls, full, p, i); }
    }
  }

  /** If every given clause has a true literal then every clause ever added holds. */
  lemma ModelFound(f: set<seq<Lit>>, a: Asn, cls: Cls, added: set<int>)
    requires AsnOk(a) && Sizes(a) && Represents(f, a, cls, added)
    requires forall p :: p in added && p in cls ==> exists t :: t in cls[p] && LitOk(a, t) && a.vals[t] == 1
    ensures Models(ValOf(a.vals), f)
  {
    hide AsnOk, ValOf;
    var v := ValOf(a.vals);
    forall c | c in f ensures Sat(v, c) {
      assert Represented(a, cls, added, c);
      if m :| m in c && (Not(m) in c || TrueAtZero(a, m)) {
        if Not(m) in c {
          HoldsNot(v, m);
          assert Holds(v, m) || Holds(v, Not(m));
        } else {
          ValHolds(a, m);
        }
      } else {
        var p :| p in added && p in cls && forall n :: n in cls[p] ==> n in c;
        var t :| t in cls[p] && LitOk(a, t) && a.vals[t] == 1;
        ValHolds(a, t);
      }
    }
  }
}
