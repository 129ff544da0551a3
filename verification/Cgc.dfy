/** The clause collector (internal/xo/cgc.go): takes long derived clauses that are
  no reasons out of use and, when enough have gathered, packs the clause store
  and moves every list that names clauses along. */
module Collector {
  import opened Lits
  import opened Assignment
  import opened Clauses
  import opened Watching
  import opened Propagation
  import opened FlatStore
  import opened Relocation
  import opened Database
  import opened Lubys
  import opened Resolution
  import opened Trails
  import opened Ranking

  // ---- sorting ----

  function Insert(s: seq<int>, x: int): (r: seq<int>)
    ensures multiset(r) == multiset(s) + multiset{x}
  {
    if |s| == 0 || x <= s[0] then [x] + s
    else assert s == [s[0]] + s[1..]; [s[0]] + Insert(s[1..], x)
  }

  function Sort(s: seq<int>): (r: seq<int>)
    ensures multiset(r) == multiset(s)
  {
    if |s| == 0 then []
    else assert s == s[..|s| - 1] + [s[|s| - 1]]; Insert(Sort(s[..|s| - 1]), s[|s| - 1])
  }

  ghost predicate Ascending(s: seq<int>) {
    forall i, j :: 0 <= i < j < |s| ==> s[i] <= s[j]
  }

  lemma {:induction false} InsertAscends(s: seq<int>, x: int)
    requires Ascending(s)
    ensures Ascending(Insert(s, x)) && |Insert(s, x)| == |s| + 1
    ensures |s| > 0 ==> Insert(s, x)[0] == if x <= s[0] then x else s[0]
  {
    if |s| > 0 && x > s[0] {
      InsertAscends(s[1..], x);
    }
  }

  lemma {:induction false} SortAscends(s: seq<int>)
    ensures Ascending(Sort(s))
  {
    if |s| > 0 {
      SortAscends(s[..|s| - 1]);
      InsertAscends(Sort(s[..|s| - 1]), s[|s| - 1]);
    }
  }

  // ---- lists without repetition ----

  ghost predicate NoDup(s: seq<int>) {
    forall i, j :: 0 <= i < j < |s| ==> s[i] != s[j]
  }

  lemma TwiceCount(s: seq<int>, i: int, j: int)
    requires 0 <= i < j < |s| && s[i] == s[j]
    ensures multiset(s)[s[i]] >= 2
  {
    assert s == s[..j] + [s[j]] + s[j + 1..];
    assert s[..j][i] == s[j];
    assert s[j] in multiset(s[..j]);
  }

  lemma NoDupOf(s: seq<int>, t: set<int>)
    requires multiset(s) <= multiset(t)
    ensures NoDup(s)
  {
    forall i, j | 0 <= i < j < |s| && s[i] == s[j] ensures false {
      TwiceCount(s, i, j);
      assert false;
    }
  }

  lemma NoDupApart(s: seq<int>, t: seq<int>, i: int, j: int)
    requires NoDup(s + t) && 0 <= i < |s| && 0 <= j < |t|
    ensures s[i] != t[j]
  {
    assert (s + t)[i] == s[i] && (s + t)[|s| + j] == t[j];
  }

  lemma {:induction false} NoDupSet(s: seq<int>, t: set<int>)
    requires NoDup(s) && forall x :: x in s <==> x in t
    ensures multiset(s) == multiset(t)
  {
    if |s| == 0 {
      assert forall x :: x !in t;
    } else {
      var n := |s| - 1;
      var t' := t - {s[n]};
      assert s == s[..n] + [s[n]];
      forall x ensures x in s[..n] <==> x in t' {
        if x in t' {
          var k :| 0 <= k < |s| && s[k] == x;
          assert s[..n][k] == x;
        }
      }
      NoDupSet(s[..n], t');
      assert s[n] in t;
      assert t == t' + {s[n]};
    }
  }

  /** The lists in use, relocated, name exactly the clauses of the packed store. */
  lemma RelocListsOk(cls: Cls, cls': Cls, added: seq<int>, learnts: seq<int>, rmq: seq<int>, rm: set<int>, m: map<int, int>)
    requires ListsOk(cls, added, learnts, rmq) && rm == SetOf(rmq) && Moved(cls, cls', rm, m)
    ensures ListsOk(cls', RelocAll(added, m), RelocAll(learnts, m), [])
  {
    hide Moved, RelocAll, ListsOk;
    var s := added + learnts;
    ListsLive(cls, added, learnts, rmq);
    var s' := RelocAll(s, m);
    RelocPlus(added, learnts, m);
    RelocApart(cls, cls', s, rm, m);
    RelocOnto(cls, cls', s, rm, m);
    NoDupSet(s', cls'.Keys);
    ListsJoin(cls', RelocAll(added, m), RelocAll(learnts, m));
  }

  lemma RelocPlus(s: seq<int>, t: seq<int>, m: map<int, int>)
    ensures RelocAll(s + t, m) == RelocAll(s, m) + RelocAll(t, m)
  {
  }

  lemma ListsJoin(cls: Cls, added: seq<int>, learnts: seq<int>)
    requires multiset(added + learnts) == multiset(cls.Keys)
    ensures ListsOk(cls, added, learnts, [])
  {
  }

  /** Different clauses stay different. */
  lemma RelocApart(cls: Cls, cls': Cls, s: seq<int>, rm: set<int>, m: map<int, int>)
    requires NoDup(s) && Moved(cls, cls', rm, m) && forall p :: p in s ==> p in cls && p !in rm
    ensures NoDup(RelocAll(s, m))
  {
    hide Moved, Reloc;
    forall i, j | 0 <= i < j < |s| ensures Reloc(m, s[i]) != Reloc(m, s[j]) {
      assert s[i] in s && s[j] in s;
      MovedKeeps(cls, cls', rm, m, s[i]);
      MovedKeeps(cls, cls', rm, m, s[j]);
      MovedApart(cls, cls', rm, m, s[i], s[j]);
    }
  }

  /** The clauses of the packed store are the relocated ones. */
  lemma RelocOnto(cls: Cls, cls': Cls, s: seq<int>, rm: set<int>, m: map<int, int>)
    requires Moved(cls, cls', rm, m) && forall p :: p in s <==> p in cls && p !in rm
    ensures forall q :: q in RelocAll(s, m) <==> q in cls'
  {
    hide Moved, Reloc;
    var s' := RelocAll(s, m);
    forall q ensures q in s' <==> q in cls' {
      if q in s' {
        var i :| 0 <= i < |s'| && s'[i] == q;
        assert s[i] in s;
        MovedKeeps(cls, cls', rm, m, s[i]);
      }
      if q in cls' {
        var p := MovedOnto(cls, cls', rm, m, q);
        assert p in s;
        var i :| 0 <= i < |s| && s[i] == p;
        assert s'[i] == q;
      }
    }
  }

  lemma ListsLive(cls: Cls, added: seq<int>, learnts: seq<int>, rmq: seq<int>)
    requires ListsOk(cls, added, learnts, rmq)
    ensures NoDup(added + learnts) && NoDup(rmq) && forall p :: p in added + learnts <==> p in cls && p !in rmq
    ensures forall p :: p in rmq ==> p in cls
  {
    var all := added + learnts + rmq;
    assert multiset(all) == multiset(cls.Keys);
    NoDupOf(all, cls.Keys);
    forall i, j | 0 <= i < j < |added + learnts| ensures (added + learnts)[i] != (added + learnts)[j] {
      assert (added + learnts)[i] == all[i] && (added + learnts)[j] == all[j];
    }
    var n := |added + learnts|;
    forall i, j | 0 <= i < j < |rmq| ensures rmq[i] != rmq[j] {
      assert rmq[i] == all[n + i] && rmq[j] == all[n + j];
    }
    forall p ensures p in added + learnts <==> p in cls && p !in rmq {
      assert p in all <==> p in multiset(all);
      assert p in cls <==> p in multiset(cls.Keys);
      if i, j :| 0 <= i < n && 0 <= j < |rmq| && (added + learnts)[i] == p && rmq[j] == p {
        NoDupApart(added + learnts, rmq, i, j);
      }
    }
    forall p | p in rmq ensures p in cls {
      assert p in multiset(all);
    }
  }

  lemma WhyInUse(a: Asn, cls: Cls, k: int)
    requires AsnOk(a) && ReasonsOk(a, cls) && 0 <= k < |a.why| && a.why[k] != 0
    ensures a.why[k] in cls && |cls[a.why[k]]| >= 1 && 2 <= cls[a.why[k]][0] < |a.vals|
    ensures a.reasons[Var(cls[a.why[k]][0])] == a.why[k]
  {
    assert Forces(a, cls[a.why[k]], k);
  }

  lemma ReasonIsWhy(a: Asn, x: int)
    requires AsnOk(a) && 0 <= x < |a.reasons| && a.reasons[x] != 0
    ensures exists k :: 0 <= k < |a.why| && a.why[k] == a.reasons[x]
  {
    var m := Mk(x, true);
    assert LitOk(a, m) && Var(m) == x;
    PlaceOf(a, m);
  }

  /** A clause that is not the reason of its first literal is no reason at all. */
  lemma NotInUse(a: Asn, cls: Cls, p: int)
    requires Core(a, cls) && p in cls && |cls[p]| >= 1 && LitOk(a, cls[p][0]) && a.reasons[Var(cls[p][0])] != p
    ensures p !in a.why && p !in a.reasons
  {
    CoreParts(a, cls);
    hide AsnOk, ReasonsOk, Var;
    forall k | 0 <= k < |a.why| ensures a.why[k] != p {
      if a.why[k] != 0 { WhyInUse(a, cls, k); }
    }
    forall x | 0 <= x < |a.reasons| ensures a.reasons[x] != p {
      if a.reasons[x] != 0 { ReasonIsWhy(a, x); }
    }
  }

  lemma ListsSorted(cls: Cls, added: seq<int>, learnts: seq<int>, learnts': seq<int>, rmq: seq<int>)
    requires ListsOk(cls, added, learnts, rmq) && multiset(learnts) == multiset(learnts')
    ensures ListsOk(cls, added, learnts', rmq) && |learnts| == |learnts'|
  {
    assert |learnts| == |multiset(learnts)| && |learnts'| == |multiset(learnts')|;
  }

  /** The clauses org are those in s and those in t. */
  ghost predicate Parts(s: seq<int>, t: seq<int>, org: seq<int>) {
    multiset(s) + multiset(t) == multiset(org)
  }

  lemma PartsStart(s: seq<int>, org: seq<int>)
    requires multiset(s) == multiset(org)
    ensures Parts(s, [], org)
  {
  }

  lemma InParts(s: seq<int>, t: seq<int>, org: seq<int>, n: int)
    requires Parts(s, t, org) && 0 <= n < |s|
    ensures s[n] in org
  {
    assert s[n] in multiset(s);
    assert s[n] in multiset(org);
  }

  lemma DropOne(s: seq<int>, n: int)
    requires 0 <= n < |s|
    ensures multiset(s[n := s[|s| - 1]][..|s| - 1]) + multiset{s[n]} == multiset(s)
  {
    var top := |s| - 1;
    var t := s[n := s[top]];
    assert t == t[..top] + [s[top]];
    assert multiset(t) == multiset(s) - multiset{s[n]} + multiset{s[top]};
  }

  /** The n-th clause goes from the list to those to be removed. */
  lemma DropAt(s: seq<int>, t: seq<int>, org: seq<int>, n: int)
    requires 0 <= n < |s| && Parts(s, t, org)
    ensures Parts(s[n := s[|s| - 1]][..|s| - 1], t + [s[n]], org)
  {
    DropOne(s, n);
    assert multiset(t + [s[n]]) == multiset(t) + multiset{s[n]};
  }

  lemma ListsDrop(cls: Cls, added: seq<int>, learnts: seq<int>, learnts': seq<int>, rmq: seq<int>, rms: seq<int>)
    requires ListsOk(cls, added, learnts, rmq) && Parts(learnts', rms, learnts)
    ensures ListsOk(cls, added, learnts', rmq + rms)
    ensures cls - SetOf(rmq + rms) == (cls - SetOf(rmq)) - SetOf(rms)
  {
  }

  /** Sorted, the clauses that wait for removal come in strictly ascending order. */
  lemma SortedStrictly(cls: Cls, added: seq<int>, learnts: seq<int>, rmq: seq<int>)
    requires ListsOk(cls, added, learnts, rmq)
    ensures var crm := Sort(rmq);
      (forall j, k :: 0 <= j < k < |crm| ==> crm[j] < crm[k]) && (forall k :: 0 <= k < |crm| ==> crm[k] in cls)
      && SetOf(crm) == SetOf(rmq)
  {
    var crm := Sort(rmq);
    SortAscends(rmq);
    NoDupOf(crm, cls.Keys);
    forall p ensures p in crm <==> p in rmq {
      assert p in multiset(crm) <==> p in multiset(rmq);
    }
    forall k | 0 <= k < |crm| ensures crm[k] in cls {
      assert crm[k] in multiset(crm);
      assert crm[k] in multiset(cls.Keys);
    }
  }

  /** What makes a derived clause removable: three literals or more, and no reason. */
  ghost predicate Removable(a: Asn, cls: Cls, p: int) {
    p in cls && |cls[p]| >= 3 && p !in a.why && p !in a.reasons
  }

  /** What the collector does: clauses of three or more literals that are no reasons
    go, every other stays at a place that m tells. */
  ghost predicate Collected(a: Asn, cls: Cls, learnts: seq<int>, a': Asn, cls': Cls, rm: set<int>, m: map<int, int>) {
    && Moved(cls, cls', rm, m) && a' == RelocAsn(a, m) && NoReason(a, rm)
    && forall p :: p in rm ==> p in learnts && Removable(a, cls, p)
  }

  /** Half of the clauses are gone, and one at least. */
  predicate HalfGone(n0: int, n1: int) {
    n1 < n0 && n1 <= n0 - n0 / 2
  }

  class Cgc {
    const cdb: Cdb
    const vars: Vars
    const trail: Trail
    const luby: Luby
    var stopWatch: int
    var rmLits: int      // literals of the clauses waiting for removal
    var rmd: int         // their number
    ghost var Unlinks: nat   // how often the collector only unlinked clauses

    constructor (c: Cdb, t: Trail)
      ensures cdb == c && vars == c.vars && trail == t && fresh(luby) && luby.Valid()
    {
      cdb, vars, trail := c, c.vars, t;
      var l := new Luby();
      var n := l.Next();
      luby := l;
      stopWatch, rmLits, rmd, Unlinks := 2048 * n, 0, 0, 0;
    }

    ghost predicate Linked()
      reads this, trail, cdb, cdb.cdat
    {
      cdb.vars == vars == trail.vars && trail.cdb == cdb && cdb.Valid()
    }

    /** Called for every clause that is learnt. */
    method Tick()
      modifies this`stopWatch
      ensures stopWatch == if old(stopWatch) > 0 then old(stopWatch) - 1 else old(stopWatch)
    {
      if stopWatch > 0 {
        stopWatch := stopWatch - 1;
      }
    }

    predicate Ready()
      reads this
    {
      stopWatch <= 0
    }

    // (c *CDat) CompactReady
    predicate compactReady()
      reads this, cdb, cdb.cdat
    {
      |cdb.cdat.D| / 2 < rmd * 2 + rmLits
    }

    /** Brings the derived clauses in the order of their worth, the best first. */
    method sortLearnts()
      modifies cdb`Learnts
      ensures multiset(cdb.Learnts) == multiset(old(cdb.Learnts)) && Sorted(cdb.cdat.D, cdb.Learnts)
    {
      SortSorted(cdb.cdat.D, cdb.Learnts);
      cdb.Learnts := SortBy(cdb.cdat.D, cdb.Learnts);
    }

    /** May clause p be removed? */
    method eligible(p: int) returns (b: bool)
      requires Linked() && Core(trail.A(), cdb.Live()) && p in cdb.Live() && |cdb.Live()[p]| >= 1
      ensures b <==> Removable(trail.A(), cdb.Live(), p)
    {
      hide Core, Layout, ListsOk;
      ghost var c := cdb.Live()[p];
      assert Stored(cdb.cdat.D, p, c);
      CoreClause(trail.A(), cdb.Live(), p);
      assert cdb.cdat.D[p] == c[0];
      StoredShort(cdb.cdat.D, p, c);
      b := !cdb.InUse(p) && !cdb.IsBinary(p) && !cdb.IsUnit(p);
      if !cdb.InUse(p) {
        NotInUse(trail.A(), cdb.Live(), p);
      } else {
        InReasons(trail.A(), c[0], p);
      }
    }

    // (c *Cdb) Size
    method size(p: int, ghost c: seq<Lit>) returns (n: int)
      requires Stored(cdb.cdat.D, p, c)
      ensures n == |c| + 2
    {
      var r := cdb.cdat.Next(p, c);
      n := r - p;
    }

    /** Takes the clauses to be removed from the end of the list, at most half of it. */
    method pick() returns (rms: seq<int>, rmLitCount: int)
      requires Linked() && Core(trail.A(), cdb.Live())
      requires forall p :: p in cdb.Learnts ==> p in cdb.Live() && |cdb.Live()[p]| >= 1
      modifies cdb`Learnts
      ensures Parts(cdb.Learnts, rms, old(cdb.Learnts))
      ensures forall p :: p in rms ==> p in old(cdb.Learnts) && Removable(trail.A(), cdb.Live(), p)
      ensures rmLitCount == Words(cdb.Live(), rms) && (|rms| <= 1 || |rms| <= |old(cdb.Learnts)| / 2)
      ensures HalfGone(|old(cdb.Learnts)|, |cdb.Learnts|) || forall p :: p in cdb.Learnts ==> !Removable(trail.A(), cdb.Live(), p)
      ensures WorstGone(trail.A(), cdb.Live(), cdb.cdat.D, SetOf(cdb.Learnts), rms)
    {
      hide Less, Sorted, FromEnd, WorstGone, SetOf, Core, Layout, Removable, ListsOk, NoneAfter, Parts, Words;
      ghost var a, live, org := trail.A(), cdb.Live(), cdb.Learnts;
      sortLearnts();
      ListsSorted(cdb.cdat.Cls, cdb.Added, org, cdb.Learnts, cdb.rmq);
      assert cdb.Live() == live;
      var learnts := cdb.Learnts;
      ghost var sorted := learnts;
      var sz := |learnts|;
      var lim := sz / 2;
      rms, rmLitCount := [], 0;
      var n := sz - 1;
      NoneNow(a, live, learnts);
      PartsStart(learnts, org);
      WordsNone(live);
      FromEndStart(cdb.cdat.D, learnts);
      while n >= 0
        invariant cdb.Learnts == sorted
        invariant -1 <= n < |learnts| && Parts(learnts, rms, org)
        invariant forall p :: p in rms ==> p in org && Removable(a, live, p)
        invariant (rms == [] && lim == sz / 2) || (lim > 0 && |rms| + lim == sz / 2)
        invariant FromEnd(cdb.cdat.D, sorted, learnts, rms, n)
        invariant rmLitCount == Words(live, rms) && |learnts| + |rms| == sz && NoneAfter(a, live, learnts, n + 1)
      {
        var p := learnts[n];
        InParts(learnts, rms, org, n);
        var b := eligible(p);
        if b {
          var k := size(p, live[p]);
          var top := |learnts| - 1;
          DropAt(learnts, rms, org, n);
          FromEndTake(cdb.cdat.D, sorted, learnts, rms, n);
          WordsMore(live, rms, p);
          rms := rms + [p];
          DropAfter(a, live, learnts, n);
          learnts := learnts[n := learnts[top]][..top];
          rmLitCount := rmLitCount + k;
          lim := lim - 1;
          if lim <= 0 {
            FromEndKept(a, live, cdb.cdat.D, sorted, learnts, rms, n - 1);
            break;
          }
        } else {
          NoneBefore(a, live, learnts, n);
          FromEndSkip(cdb.cdat.D, sorted, learnts, rms, n);
        }
        n := n - 1;
      }
      if n < 0 {
        FromEndKept(a, live, cdb.cdat.D, sorted, learnts, rms, n);
      }
      cdb.Learnts := learnts;
      if !HalfGone(sz, |learnts|) {
        AllAfter(a, live, learnts);
      }
    }

    /** Packs the clause store: what waits for removal goes, the rest moves down. */
    method CompactCDat() returns (ghost m: map<int, int>, n: int)
      requires Linked() && AsnOk(trail.A()) && ReasonsOk(trail.A(), cdb.Live())
      modifies this`rmLits, this`rmd
      modifies cdb`Learnts, cdb`Added, cdb`rmq, cdb.cdat, vars`Reasons, vars`Watches, trail`Why
      ensures Linked() && cdb.rmq == [] && n == |old(cdb.rmq)|
      ensures Moved(old(cdb.cdat.Cls), cdb.cdat.Cls, SetOf(old(cdb.rmq)), m)
      ensures HeadersKept(old(cdb.cdat.D), cdb.cdat.D, old(cdb.cdat.Cls), SetOf(old(cdb.rmq)), m)
      ensures trail.A() == RelocAsn(old(trail.A()), m) && vars.Watches == RelocLists(old(vars.Watches), m)
      ensures cdb.Added == RelocAll(old(cdb.Added), m) && cdb.Learnts == RelocAll(old(cdb.Learnts), m)
    {
      hide AsnOk, ReasonsOk, Layout, Stored, ListsOk, Moved, HeadersKept, WholeSlice, RelocAll, RelocLists, RelocAsn;
      ghost var cls, added, learnts, rmq := cdb.cdat.Cls, cdb.Added, cdb.Learnts, cdb.rmq;
      ghost var rm := SetOf(rmq);
      ghost var a := trail.A();
      rmLits, rmd := 0, 0;
      var crm := Sort(cdb.rmq);
      SortedStrictly(cls, added, learnts, rmq);
      LayoutMax(|cdb.cdat.D|, cls, cdb.cdat.Locs);
      var relocMap, freed := cdb.cdat.Compact(crm);
      m, n := relocMap, |crm|;
      WholeLists(a, cls, cdb.cdat.Cls, added, learnts, rmq, rm, m);
      relocate(relocMap);
      cdb.rmq := [];
    }

    method relocate(rlm: map<int, int>)
      requires trail.vars == vars && WholeSlice(cdb.Added, rlm) && WholeSlice(cdb.Learnts, rlm) && WholeSlice(vars.Reasons, rlm)
      modifies cdb`Learnts, cdb`Added, vars`Reasons, vars`Watches, trail`Why
      ensures cdb.Learnts == RelocAll(old(cdb.Learnts), rlm) && cdb.Added == RelocAll(old(cdb.Added), rlm)
      ensures trail.A() == RelocAsn(old(trail.A()), rlm)
      ensures vars.Watches == RelocLists(old(vars.Watches), rlm)
    {
      hide RelocSlice, RelocAll, RelocLists;
      cdb.Learnts := relocateSlice(cdb.Learnts, rlm);
      cdb.Added := relocateSlice(cdb.Added, rlm);
      vars.Reasons := relocateSlice(vars.Reasons, rlm);
      trail.Why := RelocAll(trail.Why, rlm);
      relocateWatches(rlm);
    }

    method relocateWatches(rlm: map<int, int>)
      modifies vars`Watches
      ensures vars.Watches == RelocLists(old(vars.Watches), rlm)
    {
      hide RelocList;
      ghost var watches := vars.Watches;
      for l := 0 to |vars.Watches|
        invariant |vars.Watches| == |watches|
        invariant forall k :: 0 <= k < |watches| ==> vars.Watches[k] == if 2 <= k < l then RelocList(watches[k], rlm) else watches[k]
      {
        if l >= 2 {
          var ws := relocateList(vars.Watches[l], rlm);
          vars.Watches := vars.Watches[l := ws];
        }
      }
    }

    method relocateList(ws0: seq<Watch>, rlm: map<int, int>) returns (ws: seq<Watch>)
      ensures ws == RelocList(ws0, rlm)
    {
      ws := ws0;
      var j := 0;
      for i := 0 to |ws|
        invariant 0 <= j <= i <= |ws| == |ws0| && ws[i..] == ws0[i..] && ws[..j] == RelocList(ws0[..i], rlm)
      {
        var w := ws[i];
        assert w == ws[i..][0] == ws0[i];
        assert ws0[..i + 1] == ws0[..i] + [w] && ws0[..i + 1][..i] == ws0[..i];
        PutAt(ws, ws0, i, j, if w.c in rlm then w.(c := rlm[w.c]) else w);
        if w.c !in rlm {
          ws := ws[j := w];
          j := j + 1;
        } else if rlm[w.c] != 0 {
          ws := ws[j := w.(c := rlm[w.c])];
          j := j + 1;
        }
      }
      assert ws0[..|ws0|] == ws0;
      ws := ws[..j];
    }

    /** The clauses rms wait for removal. */
    ghost predicate Queued(a: Asn, live: Cls, learnts: seq<int>, rms: seq<int>)
      reads this, trail, vars, cdb, cdb.cdat
    {
      && Linked() && a == trail.A() && Core(a, live)
      && cdb.Live() == live - SetOf(rms) && (forall p :: p in rms ==> p in cdb.rmq)
      && forall p :: p in rms ==> p in learnts && Removable(a, live, p)
    }

    /** Enough clauses wait for removal: the store is packed. */
    method free(ghost a: Asn, ghost live: Cls, ghost learnts: seq<int>, ghost rms: seq<int>) returns (ghost m: map<int, int>)
      requires Queued(a, live, learnts, rms)
      modifies this`rmLits, this`rmd
      modifies cdb`Learnts, cdb`Added, cdb`rmq, cdb.cdat, vars`Reasons, vars`Watches, trail`Why
      ensures Linked() && Collected(a, live, learnts, trail.A(), cdb.Live(), SetOf(rms), m)
      ensures vars.Watches == RelocLists(old(vars.Watches), m) && cdb.Added == RelocAll(old(cdb.Added), m)
      ensures cdb.Learnts == RelocAll(old(cdb.Learnts), m)
      ensures HeadersKept(old(cdb.cdat.D), cdb.cdat.D, live, SetOf(rms), m)
    {
      hide Core, AsnOk, ReasonsOk, Layout, Stored, ListsOk, Moved, RelocAll, RelocLists, RelocAsn, Removable, HeadersKept;
      ghost var cls, rmq, dead, d := cdb.cdat.Cls, cdb.rmq, SetOf(rms), cdb.cdat.D;
      CoreParts(a, live);
      RemovableParts(a, live, rms);
      StillReasons(a, live, dead);
      var n;
      m, n := CompactCDat();
      MovedFrom(cls, cdb.cdat.Cls, rmq, live, rms, m);
      HeadersFrom(d, cdb.cdat.D, cls, rmq, live, rms, m);
      NoneDead(cdb.cdat.Cls, cdb.rmq);
    }

    /** The clauses are only taken out of the watch lists. */
    method unlink(ghost a: Asn, ghost live: Cls, ghost learnts: seq<int>, rms: seq<int>) returns (ghost m: map<int, int>)
      requires Queued(a, live, learnts, rms) && WatchesOk(live, vars.Watches, |vars.Vals|)
      requires live.Keys <= cdb.cdat.Cls.Keys && (forall p :: p in live ==> live[p] == cdb.cdat.Cls[p])
      requires (forall k :: k in cdb.AddLits ==> 2 <= k < |vars.Vals|) && |vars.Vals| <= 2 * |cdb.AddVals|
      requires forall x :: 0 <= x < |cdb.AddVals| ==> cdb.AddVals[x] == 0
      requires forall p :: p in cdb.Added ==> p !in rms
      modifies cdb`AddLits, cdb`AddVals, vars`Watches
      ensures Linked() && Collected(a, live, learnts, trail.A(), cdb.Live(), SetOf(rms), m)
      ensures |cdb.AddVals| == |old(cdb.AddVals)| && cdb.AddLits == [] && forall x :: 0 <= x < |cdb.AddVals| ==> cdb.AddVals[x] == 0
      ensures vars.Watches == RelocLists(old(vars.Watches), m) && cdb.Added == RelocAll(cdb.Added, m)
      ensures HeadersKept(cdb.cdat.D, cdb.cdat.D, live, SetOf(rms), m) && m == Gone(rms)
    {
      hide Core, Layout, Stored, ListsOk, Collected, RelocAll, RelocLists, Removable, ClsOk, WatchesOk, HeadersKept;
      m := Gone(rms);
      UnlinkFacts(a, live, learnts, cdb.Added, rms);
      HeadersGone(cdb.cdat.D, cdb.cdat.Cls, live, rms);
      hide Gone;
      cdb.Unlink(rms, live, |vars.Vals|);
    }

    /** Removes the clauses rms, which wait for it, from all lists, and from the store if
      enough is free. */
    method clear(ghost a: Asn, ghost live: Cls, ghost learnts: seq<int>, rms: seq<int>) returns (ghost m: map<int, int>)
      requires Queued(a, live, learnts, rms) && WatchesOk(live, vars.Watches, |vars.Vals|)
      requires live.Keys <= cdb.cdat.Cls.Keys && (forall p :: p in live ==> live[p] == cdb.cdat.Cls[p])
      requires (forall k :: k in cdb.AddLits ==> 2 <= k < |vars.Vals|) && |vars.Vals| <= 2 * |cdb.AddVals|
      requires forall x :: 0 <= x < |cdb.AddVals| ==> cdb.AddVals[x] == 0
      requires (forall p :: p in cdb.Added ==> p !in rms) && forall p :: p in cdb.Learnts ==> p !in rms
      modifies this`rmLits, this`rmd, this`Unlinks, cdb`AddLits, cdb`AddVals
      modifies cdb`Learnts, cdb`Added, cdb`rmq, cdb.cdat, vars`Reasons, vars`Watches, trail`Why
      ensures Linked() && Collected(a, live, learnts, trail.A(), cdb.Live(), SetOf(rms), m)
      ensures |cdb.AddVals| == |old(cdb.AddVals)| && forall x :: 0 <= x < |cdb.AddVals| ==> cdb.AddVals[x] == 0
      ensures cdb.AddLits == if old(compactReady()) then old(cdb.AddLits) else []
      ensures Unlinks == if old(compactReady()) then old(Unlinks) else old(Unlinks) + 1
      ensures HeadersKept(old(cdb.cdat.D), cdb.cdat.D, live, SetOf(rms), m)
      ensures |cdb.Learnts| == |old(cdb.Learnts)| && SetOf(cdb.Learnts) == Image(SetOf(old(cdb.Learnts)), m)
      ensures vars.Watches == RelocLists(old(vars.Watches), m) && cdb.Added == RelocAll(old(cdb.Added), m)
    {
      hide Core, Layout, Stored, ListsOk, Removable, WatchesOk, Collected, RelocAll, RelocLists, HeadersKept, SetOf, Image;
      ghost var left := cdb.Learnts;
      if !compactReady() {
        Unlinks := Unlinks + 1;
        m := unlink(a, live, learnts, rms);
        ImageGone(left, rms);
      } else {
        m := free(a, live, learnts, rms);
        RelocSize(left, m);
        ImageOf(left, m);
      }
    }

    /** Runs the collector; rms are the clauses removed, m tells where the others are.
      Unless enough is free for packing the store, a clause begun is lost. */
    method Compact() returns (ghost rms: seq<int>, ghost m: map<int, int>)
      requires Linked() && Core(trail.A(), cdb.Live()) && WatchesOk(cdb.Live(), vars.Watches, |vars.Vals|)
      requires forall p :: p in cdb.Live() ==> |cdb.Live()[p]| >= 1
      requires (forall k :: k in cdb.AddLits ==> 2 <= k < |vars.Vals|) && |vars.Vals| <= 2 * |cdb.AddVals|
      requires forall x :: 0 <= x < |cdb.AddVals| ==> cdb.AddVals[x] == 0
      requires luby.Valid()
      modifies this, luby, cdb`AddLits, cdb`AddVals
      modifies cdb`Learnts, cdb`Added, cdb`rmq, cdb.cdat, vars`Reasons, vars`Watches, trail`Why
      ensures Linked() && luby.Valid() && luby.calls == old(luby.calls) + 1 && stopWatch == LubyAt(luby.calls) * 2048
      ensures |cdb.AddVals| == |old(cdb.AddVals)| && forall x :: 0 <= x < |cdb.AddVals| ==> cdb.AddVals[x] == 0
      ensures var packed := |old(cdb.cdat.D)| / 2 < 2 * (old(rmd) + |rms|) + old(rmLits) + Words(old(cdb.Live()), rms);
        && cdb.AddLits == (if packed then old(cdb.AddLits) else [])
        && Unlinks == if packed then old(Unlinks) else old(Unlinks) + 1
      ensures HeadersKept(old(cdb.cdat.D), cdb.cdat.D, old(cdb.Live()), SetOf(rms), m)
      ensures SetOf(cdb.Learnts) == Image(SetOf(old(cdb.Learnts)) - SetOf(rms), m)
      ensures Collected(old(trail.A()), old(cdb.Live()), old(cdb.Learnts), trail.A(), cdb.Live(), SetOf(rms), m)
      ensures vars.Watches == RelocLists(old(vars.Watches), m) && cdb.Added == RelocAll(old(cdb.Added), m)
      ensures HalfGone(|old(cdb.Learnts)|, |cdb.Learnts|)
        || forall p :: p in old(cdb.Learnts) && p !in SetOf(rms) ==> !Removable(old(trail.A()), old(cdb.Live()), p)
      ensures WorstGone(old(trail.A()), old(cdb.Live()), old(cdb.cdat.D), SetOf(old(cdb.Learnts)) - SetOf(rms), rms)
    {
      hide Core, Layout, Stored, ListsOk, Removable, WatchesOk, Collected, RelocAll, RelocLists, HalfGone, WorstGone, Parts, HeadersKept, SetOf, Image, LubyAt, After;
      ghost var a, live, cls, learnts, rmq := trail.A(), cdb.Live(), cdb.cdat.Cls, cdb.Learnts, cdb.rmq;
      var n := luby.Next();
      stopWatch := n * 2048;
      ListsMembers(cls, cdb.Added, learnts, rmq);
      var picked, rmLitCount := pick();
      rms := picked;
      ListsDrop(cls, cdb.Added, learnts, cdb.Learnts, rmq, rms);
      PickedSet(cls, cdb.Added, learnts, cdb.Learnts, rmq, rms);
      cdb.rmq := cdb.rmq + picked;
      rmd := rmd + |picked|;
      rmLits := rmLits + rmLitCount;
      ghost var left := cdb.Learnts;
      if !HalfGone(|learnts|, |left|) {
        NoneLeft(a, live, learnts, left, rms);
      }
      NotPicked(left, learnts, rms);
      m := clear(a, live, learnts, picked);
    }
  }

  lemma InReasons(a: Asn, m: Lit, p: int)
    requires 0 <= Var(m) < |a.reasons| && a.reasons[Var(m)] == p
    ensures p in a.reasons
  {
  }

  /** The words that the clauses take, with header and null. */
  ghost function Words(cls: Cls, ps: seq<int>): int {
    if |ps| == 0 then 0
    else
      var p := ps[|ps| - 1];
      Words(cls, ps[..|ps| - 1]) + if p in cls then |cls[p]| + 2 else 0
  }

  lemma WordsNone(cls: Cls)
    ensures Words(cls, []) == 0
  {
  }

  lemma WordsMore(cls: Cls, ps: seq<int>, p: int)
    requires p in cls
    ensures Words(cls, ps + [p]) == Words(cls, ps) + |cls[p]| + 2
  {
    assert (ps + [p])[..|ps|] == ps;
  }

  /** No clause removed comes before a removable one that is left. */
  ghost predicate WorstGone(a: Asn, live: Cls, d: seq<int>, rest: set<int>, rms: seq<int>) {
    forall p, q :: p in rms && q in rest && Removable(a, live, q) ==> !Less(d, p, q)
  }

  /** The places up to n are as sorted, and the clauses picked come after them. */
  ghost predicate FromEnd(d: seq<int>, sorted: seq<int>, learnts: seq<int>, rms: seq<int>, n: int) {
    && -1 <= n < |learnts| <= |sorted| && learnts[..n + 1] == sorted[..n + 1] && Sorted(d, sorted)
    && forall p, j :: p in rms && 0 <= j <= n ==> !Less(d, p, sorted[j])
  }

  lemma FromEndStart(d: seq<int>, s: seq<int>)
    requires Sorted(d, s)
    ensures FromEnd(d, s, s, [], |s| - 1)
  {
  }

  lemma FromEndSkip(d: seq<int>, sorted: seq<int>, learnts: seq<int>, rms: seq<int>, n: int)
    requires FromEnd(d, sorted, learnts, rms, n) && n >= 0
    ensures FromEnd(d, sorted, learnts, rms, n - 1)
  {
    assert learnts[..n] == learnts[..n + 1][..n];
    assert sorted[..n] == sorted[..n + 1][..n];
  }

  lemma FromEndTake(d: seq<int>, sorted: seq<int>, learnts: seq<int>, rms: seq<int>, n: int)
    requires FromEnd(d, sorted, learnts, rms, n) && n >= 0
    ensures FromEnd(d, sorted, learnts[n := learnts[|learnts| - 1]][..|learnts| - 1], rms + [learnts[n]], n - 1)
  {
    hide Less;
    var learnts' := learnts[n := learnts[|learnts| - 1]][..|learnts| - 1];
    assert learnts[n] == learnts[..n + 1][n] == sorted[..n + 1][n] == sorted[n];
    assert learnts'[..n] == learnts[..n + 1][..n];
    assert sorted[..n] == sorted[..n + 1][..n];
  }

  lemma FromEndKept(a: Asn, live: Cls, d: seq<int>, sorted: seq<int>, learnts: seq<int>, rms: seq<int>, n: int)
    requires FromEnd(d, sorted, learnts, rms, n) && NoneAfter(a, live, learnts, n + 1)
    ensures WorstGone(a, live, d, SetOf(learnts), rms)
  {
    hide Less, Removable;
    forall p, q | p in rms && q in SetOf(learnts) && Removable(a, live, q) ensures !Less(d, p, q) {
      var j :| 0 <= j < |learnts| && learnts[j] == q;
      assert j <= n;
      assert learnts[j] == learnts[..n + 1][j] == sorted[..n + 1][j];
    }
  }

  /** None of the clauses from place n on is removable. */
  ghost predicate NoneAfter(a: Asn, live: Cls, learnts: seq<int>, n: int) {
    n >= 0 && forall k :: n <= k < |learnts| ==> !Removable(a, live, learnts[k])
  }

  lemma NoneNow(a: Asn, live: Cls, learnts: seq<int>)
    ensures NoneAfter(a, live, learnts, |learnts|)
  {
  }

  lemma NoneBefore(a: Asn, live: Cls, learnts: seq<int>, n: int)
    requires NoneAfter(a, live, learnts, n + 1) && 0 <= n < |learnts| && !Removable(a, live, learnts[n])
    ensures NoneAfter(a, live, learnts, n)
  {
  }

  lemma DropAfter(a: Asn, live: Cls, learnts: seq<int>, n: int)
    requires NoneAfter(a, live, learnts, n + 1) && 0 <= n < |learnts|
    ensures NoneAfter(a, live, learnts[n := learnts[|learnts| - 1]][..|learnts| - 1], n)
  {
  }

  lemma AllAfter(a: Asn, live: Cls, learnts: seq<int>)
    requires NoneAfter(a, live, learnts, 0)
    ensures forall p :: p in learnts ==> !Removable(a, live, p)
  {
  }

  /** What is not removed was not to be removed. */
  lemma NoneLeft(a: Asn, live: Cls, learnts: seq<int>, learnts': seq<int>, rms: seq<int>)
    requires Parts(learnts', rms, learnts) && forall p :: p in learnts' ==> !Removable(a, live, p)
    ensures forall p :: p in learnts && p !in SetOf(rms) ==> !Removable(a, live, p)
  {
    forall p | p in learnts && p !in SetOf(rms) ensures p in learnts' {
      assert p in multiset(learnts) && p !in multiset(rms);
      assert p in multiset(learnts');
    }
  }

  lemma RemovableParts(a: Asn, live: Cls, rms: seq<int>)
    requires forall p :: p in rms ==> Removable(a, live, p)
    ensures forall p :: p in rms ==> p in live && |live[p]| >= 3
    ensures forall k :: 0 <= k < |a.why| ==> a.why[k] !in rms
    ensures forall x :: 0 <= x < |a.reasons| ==> a.reasons[x] !in rms
    ensures NoReason(a, SetOf(rms))
  {
    forall k | 0 <= k < |a.why| ensures a.why[k] !in rms { NotRemovable(a, live, a.why[k]); }
    forall x | 0 <= x < |a.reasons| ensures a.reasons[x] !in rms { NotRemovable(a, live, a.reasons[x]); }
  }

  lemma HeadersFrom(d0: seq<int>, d: seq<int>, cls: Cls, rmq: seq<int>, live: Cls, rms: seq<int>, m: map<int, int>)
    requires HeadersKept(d0, d, cls, SetOf(rmq), m) && live - SetOf(rms) == cls - SetOf(rmq)
    ensures HeadersKept(d0, d, live, SetOf(rms), m)
  {
    SameLive(cls, SetOf(rmq), live, SetOf(rms));
    hide SetOf, Reloc;
  }

  /** Unlinking leaves the headers where they are. */
  lemma HeadersGone(d: seq<int>, cls: Cls, live: Cls, rms: seq<int>)
    requires AllStored(d, cls) && live.Keys <= cls.Keys
    ensures HeadersKept(d, d, live, SetOf(rms), Gone(rms))
  {
    forall p | p in live && p !in SetOf(rms) ensures 1 <= p <= |d| { StoredAt(d, cls, p); }
  }

  /** The derived clauses that were not picked. */
  lemma PickedSet(cls: Cls, added: seq<int>, learnts: seq<int>, learnts': seq<int>, rmq: seq<int>, rms: seq<int>)
    requires ListsOk(cls, added, learnts, rmq) && Parts(learnts', rms, learnts)
    ensures SetOf(learnts') == SetOf(learnts) - SetOf(rms)
  {
    ListsLive(cls, added, learnts, rmq);
    forall p ensures p in learnts' <==> p in learnts && p !in rms {
      OnceOnly(added, learnts, p);
      assert multiset(learnts')[p] + multiset(rms)[p] == multiset(learnts)[p];
      assert (p in learnts' <==> multiset(learnts')[p] > 0) && (p in rms <==> multiset(rms)[p] > 0) && (p in learnts <==> multiset(learnts)[p] > 0);
    }
  }

  lemma OnceOnly(s: seq<int>, t: seq<int>, p: int)
    requires NoDup(s + t)
    ensures multiset(t)[p] <= 1
  {
    NoDupSet(t, SetOf(t)) by {
      forall i, j | 0 <= i < j < |t| ensures t[i] != t[j] {
        assert (s + t)[|s| + i] == t[i] && (s + t)[|s| + j] == t[j];
      }
    }
  }

  lemma ImageGone(left: seq<int>, rms: seq<int>)
    requires forall p :: p in left ==> p !in rms
    ensures SetOf(left) == Image(SetOf(left), Gone(rms))
  {
    forall p | p in SetOf(left) ensures Reloc(Gone(rms), p) == p {
    }
    hide Gone, SetOf, Reloc;
    var im := Image(SetOf(left), Gone(rms));
    assert forall p :: p in SetOf(left) ==> p in im;
  }

  lemma NotPicked(left: seq<int>, learnts: seq<int>, rms: seq<int>)
    requires SetOf(left) == SetOf(learnts) - SetOf(rms)
    ensures forall p :: p in left ==> p !in rms
  {
    forall p | p in left ensures p !in rms {
      assert p in SetOf(left);
    }
  }

  lemma RelocSize(ps: seq<int>, m: map<int, int>)
    ensures |RelocAll(ps, m)| == |ps|
  {
  }

  lemma NotRemovable(a: Asn, live: Cls, p: int)
    requires p in a.why || p in a.reasons
    ensures !Removable(a, live, p)
  {
  }

  lemma UnlinkFacts(a: Asn, live: Cls, learnts: seq<int>, added: seq<int>, rms: seq<int>)
    requires Core(a, live) && forall p :: p in rms ==> p in learnts && Removable(a, live, p)
    requires forall p :: p in added ==> p !in rms
    ensures Collected(a, live, learnts, a, live - SetOf(rms), SetOf(rms), Gone(rms))
    ensures RelocAll(added, Gone(rms)) == added && ClsOk(|a.vals|, live)
    ensures forall p :: p in rms ==> p in live && |live[p]| >= 3
  {
    CoreParts(a, live);
    RemovableParts(a, live, rms);
    hide AsnOk, ReasonsOk, RelocAll, RelocAsn, Removable, Moved, ClauseOk;
    GoneMoved(live, rms);
    GoneAsn(a, rms);
    GoneAdded(added, rms);
  }

  lemma StillReasons(a: Asn, live: Cls, dead: set<int>)
    requires Sizes(a) && ReasonsOk(a, live) && NoReason(a, dead)
    ensures ReasonsOk(a, live - dead)
  {
  }

  lemma MovedFrom(cls: Cls, cls': Cls, rmq: seq<int>, live: Cls, rms: seq<int>, m: map<int, int>)
    requires Moved(cls, cls', SetOf(rmq), m)
    requires (forall p :: p in rms ==> p in rmq) && live - SetOf(rms) == cls - SetOf(rmq)
    ensures Moved(live, cls', SetOf(rms), m)
  {
    var rm := SetOf(rms);
    SameLive(cls, SetOf(rmq), live, rm);
    hide Reloc, SetOf;
    forall q | q in cls' ensures exists p :: p in live && p !in rm && Reloc(m, p) == q {
      var p :| p in cls && p !in SetOf(rmq) && Reloc(m, p) == q;
    }
  }

  lemma SameLive(cls: Cls, dead: set<int>, live: Cls, rm: set<int>)
    requires live - rm == cls - dead
    ensures forall p :: p in live && p !in rm <==> p in cls && p !in dead
    ensures forall p :: p in live && p !in rm ==> live[p] == cls[p]
  {
    assert forall p :: p in live && p !in rm <==> p in live - rm;
    assert forall p :: p in cls && p !in dead <==> p in cls - dead;
    assert forall p :: p in live && p !in rm ==> live[p] == (live - rm)[p] == cls[p];
  }

  lemma NoneDead(cls: Cls, rmq: seq<int>)
    requires rmq == []
    ensures cls - SetOf(rmq) == cls
  {
  }

  lemma GoneAdded(added: seq<int>, rms: seq<int>)
    requires forall p :: p in added ==> p !in rms
    ensures RelocAll(added, Gone(rms)) == added
  {
  }

  lemma ListsMembers(cls: Cls, added: seq<int>, learnts: seq<int>, rmq: seq<int>)
    requires ListsOk(cls, added, learnts, rmq)
    ensures forall p :: p in learnts ==> p in cls && p !in rmq && p !in added
    ensures forall p :: p in added ==> p in cls && p !in rmq
    ensures forall p :: p in learnts ==> p in cls - SetOf(rmq)
  {
    ListsLive(cls, added, learnts, rmq);
    forall p | p in learnts ensures p in added + learnts && p !in added {
      var j :| 0 <= j < |learnts| && learnts[j] == p;
      forall i | 0 <= i < |added| ensures added[i] != p { NoDupApart(added, learnts, i, j); }
    }
    assert forall p :: p in added ==> p in added + learnts;
  }

  ghost predicate WholeSlice(ps: seq<int>, m: map<int, int>) {
    RelocSlice(ps, m) == RelocAll(ps, m)
  }

  /** Places that are not in rm are found again one by one. */
  lemma SurviveWhole(ps: seq<int>, rm: set<int>, cls: Cls, cls': Cls, m: map<int, int>)
    requires Moved(cls, cls', rm, m) && forall i :: 0 <= i < |ps| ==> ps[i] !in rm && (ps[i] in cls || ps[i] == 0)
    ensures WholeSlice(ps, m)
  {
    forall i | 0 <= i < |ps| && ps[i] in m ensures m[ps[i]] != 0 {
      if ps[i] != 0 { MovedKeeps(cls, cls', rm, m, ps[i]); }
    }
    SliceWhole(ps, m);
  }

  lemma WholeLists(a: Asn, cls: Cls, cls': Cls, added: seq<int>, learnts: seq<int>, rmq: seq<int>, rm: set<int>, m: map<int, int>)
    requires ListsOk(cls, added, learnts, rmq) && rm == SetOf(rmq) && Moved(cls, cls', rm, m)
    requires AsnOk(a) && ReasonsOk(a, cls - rm) && (forall p :: p in cls ==> p > 0)
    ensures WholeSlice(added, m) && WholeSlice(learnts, m) && WholeSlice(a.reasons, m)
    ensures ListsOk(cls', RelocAll(added, m), RelocAll(learnts, m), [])
  {
    RelocListsOk(cls, cls', added, learnts, rmq, rm, m);
    hide AsnOk, ReasonsOk, Moved;
    ListsLive(cls, added, learnts, rmq);
    forall i | 0 <= i < |added| ensures added[i] !in rm && added[i] in cls { assert (added + learnts)[i] == added[i]; }
    forall i | 0 <= i < |learnts| ensures learnts[i] !in rm && learnts[i] in cls { assert (added + learnts)[|added| + i] == learnts[i]; }
    forall x | 0 <= x < |a.reasons| ensures a.reasons[x] !in rm && (a.reasons[x] in cls || a.reasons[x] == 0) {
      if a.reasons[x] != 0 {
        ReasonIsWhy(a, x);
        var k :| 0 <= k < |a.why| && a.why[k] == a.reasons[x];
        WhyInUse(a, cls - rm, k);
      } else {
        assert 0 !in rm;
      }
    }
    SurviveWhole(added, rm, cls, cls', m);
    SurviveWhole(learnts, rm, cls, cls', m);
    SurviveWhole(a.reasons, rm, cls, cls', m);
  }

  method relocateSlice(ps0: seq<int>, m: map<int, int>) returns (ps: seq<int>)
    ensures ps == RelocSlice(ps0, m)
  {
    ps := ps0;
    var j := 0;
    for i := 0 to |ps|
      invariant 0 <= j <= i <= |ps| == |ps0| && ps[i..] == ps0[i..] && ps[..j] == RelocSlice(ps0[..i], m)
    {
      var p := ps[i];
      assert p == ps[i..][0] == ps0[i];
      assert ps0[..i + 1] == ps0[..i] + [p] && ps0[..i + 1][..i] == ps0[..i];
      PutAt(ps, ps0, i, j, if p in m then m[p] else p);
      if p !in m {
        ps := ps[j := p];
        j := j + 1;
      } else if m[p] != 0 {
        ps := ps[j := m[p]];
        j := j + 1;
      }
    }
    assert ps0[..|ps0|] == ps0;
    ps := ps[..j];
  }
}
