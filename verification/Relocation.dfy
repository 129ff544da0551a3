/** Clauses are removed and moved: what the collector does to every list that
  names clauses, and what stays true of the solver (internal/xo/cgc.go). */
module Relocation {
  import opened Lits
  import opened Assignment
  import opened Clauses
  import opened Watching
  import opened Propagation
  import opened FlatStore

  /** The entries that stay, with their new places. */
  function RelocSlice(ps: seq<int>, m: map<int, int>): seq<int> {
    if |ps| == 0 then []
    else
      var r := RelocSlice(ps[..|ps| - 1], m);
      var p := ps[|ps| - 1];
      if p !in m then r + [p] else if m[p] == 0 then r else r + [m[p]]
  }

  function RelocList(ws: seq<Watch>, m: map<int, int>): seq<Watch> {
    if |ws| == 0 then []
    else
      var r := RelocList(ws[..|ws| - 1], m);
      var w := ws[|ws| - 1];
      if w.c !in m then r + [w] else if m[w.c] == 0 then r else r + [w.(c := m[w.c])]
  }

  function RelocAll(ps: seq<int>, m: map<int, int>): (r: seq<int>)
    ensures |r| == |ps| && forall i :: 0 <= i < |ps| ==> r[i] == Reloc(m, ps[i])
  {
    seq(|ps|, i requires 0 <= i < |ps| => Reloc(m, ps[i]))
  }

  /** Filtering in place: the i-th entry, kept as x, goes to place j. */
  lemma PutAt<T>(s: seq<T>, s0: seq<T>, i: int, j: int, x: T)
    requires 0 <= j <= i < |s| == |s0| && s[i..] == s0[i..]
    ensures s[j := x][..j + 1] == s[..j] + [x] && s[j := x][i + 1..] == s0[i + 1..] && s[i + 1..] == s0[i + 1..]
  {
  }

  /** A list none of whose entries is removed keeps its length. */
  lemma {:induction false} SliceWhole(ps: seq<int>, m: map<int, int>)
    requires forall i :: 0 <= i < |ps| && ps[i] in m ==> m[ps[i]] != 0
    ensures RelocSlice(ps, m) == RelocAll(ps, m)
  {
    if |ps| > 0 {
      SliceWhole(ps[..|ps| - 1], m);
      assert RelocAll(ps, m) == RelocAll(ps[..|ps| - 1], m) + [Reloc(m, ps[|ps| - 1])];
    }
  }

  /** Exactly the surviving entries are there, in the same order. */
  lemma {:induction false} ListFrom(ws: seq<Watch>, m: map<int, int>, i: int)
    requires 0 <= i < |RelocList(ws, m)|
    ensures exists k {:trigger ws[k]} :: 0 <= k < |ws| && Survives(m, ws[k].c) && RelocList(ws, m)[i] == ws[k].(c := Reloc(m, ws[k].c))
  {
    var n := |ws| - 1;
    var r := RelocList(ws[..n], m);
    if i < |r| {
      ListFrom(ws[..n], m, i);
      var k :| 0 <= k < n && Survives(m, ws[..n][k].c) && r[i] == ws[..n][k].(c := Reloc(m, ws[..n][k].c));
      assert ws[k] == ws[..n][k];
    } else {
      assert ws[n].(c := ws[n].c) == ws[n];
    }
  }

  predicate Survives(m: map<int, int>, p: int) {
    p in m ==> m[p] != 0
  }

  lemma {:induction false} ListTo(ws: seq<Watch>, m: map<int, int>, k: int)
    requires 0 <= k < |ws| && Survives(m, ws[k].c)
    ensures InW(RelocList(ws, m), Reloc(m, ws[k].c))
  {
    var n := |ws| - 1;
    var r := RelocList(ws[..n], m);
    if k < n {
      ListTo(ws[..n], m, k);
      var i :| 0 <= i < |r| && r[i].c == Reloc(m, ws[k].c);
      assert RelocList(ws, m)[i].c == Reloc(m, ws[k].c);
    } else {
      assert RelocList(ws, m)[|r|].c == Reloc(m, ws[k].c);
    }
  }

  /** The names in the list stay different. */
  lemma {:induction false} ListDistinct(ws: seq<Watch>, cls: Cls, cls': Cls, rm: set<int>, m: map<int, int>)
    requires Moved(cls, cls', rm, m)
    requires forall i :: 0 <= i < |ws| ==> ws[i].c in cls
    requires forall i, j :: 0 <= i < j < |ws| ==> ws[i].c != ws[j].c
    ensures forall i, j :: 0 <= i < j < |RelocList(ws, m)| ==> RelocList(ws, m)[i].c != RelocList(ws, m)[j].c
  {
    hide Moved;
    if |ws| > 0 {
      var n := |ws| - 1;
      var r := RelocList(ws[..n], m);
      ListDistinct(ws[..n], cls, cls', rm, m);
      if Survives(m, ws[n].c) {
        forall i | 0 <= i < |r| ensures r[i].c != Reloc(m, ws[n].c) {
          ListFrom(ws[..n], m, i);
          var k :| 0 <= k < n && Survives(m, ws[..n][k].c) && r[i] == ws[..n][k].(c := Reloc(m, ws[..n][k].c));
          assert ws[..n][k] == ws[k];
          MovedApart(cls, cls', rm, m, ws[k].c, ws[n].c);
        }
      }
    }
  }

  /** Every clause afterwards was one before. */
  lemma MovedOnto(cls: Cls, cls': Cls, rm: set<int>, m: map<int, int>, q: int) returns (p: int)
    requires Moved(cls, cls', rm, m) && q in cls'
    ensures p in cls && p !in rm && Reloc(m, p) == q && cls'[q] == cls[p] && q > 0
  {
    p :| p in cls && p !in rm && Reloc(m, p) == q;
  }

  lemma MovedApart(cls: Cls, cls': Cls, rm: set<int>, m: map<int, int>, p: int, q: int)
    requires Moved(cls, cls', rm, m) && p in cls && q in cls && p != q && Survives(m, p) && Survives(m, q)
    ensures Reloc(m, p) != Reloc(m, q)
  {
  }

  /** A clause survives unless it is removed; its literals do not change. */
  lemma MovedKeeps(cls: Cls, cls': Cls, rm: set<int>, m: map<int, int>, p: int)
    requires Moved(cls, cls', rm, m) && p in cls
    ensures Survives(m, p) <==> p !in rm
    ensures p !in rm ==> Reloc(m, p) in cls' && cls'[Reloc(m, p)] == cls[p] && Reloc(m, p) > 0
  {
  }

  lemma RelocListOk(cls: Cls, cls': Cls, rm: set<int>, m: map<int, int>, l: Lit, ws: seq<Watch>)
    requires Moved(cls, cls', rm, m) && ListOk(cls, l, ws)
    ensures ListOk(cls', l, RelocList(ws, m))
  {
    var ws' := RelocList(ws, m);
    ListDistinct(ws, cls, cls', rm, m);
    hide Moved, RelocList, EntryOk;
    forall i | 0 <= i < |ws'| ensures ws'[i].c in cls' && EntryOk(ws'[i], cls'[ws'[i].c], l) && Watched(cls', ws'[i].c, l) {
      RelocEntry(cls, cls', rm, m, l, ws, i);
    }
    forall q | Watched(cls', q, l) ensures InW(ws', q) {
      RelocCovers(cls, cls', rm, m, l, ws, q);
    }
  }

  lemma RelocEntry(cls: Cls, cls': Cls, rm: set<int>, m: map<int, int>, l: Lit, ws: seq<Watch>, i: int)
    requires Moved(cls, cls', rm, m) && ListOk(cls, l, ws) && 0 <= i < |RelocList(ws, m)|
    ensures var w := RelocList(ws, m)[i]; w.c in cls' && EntryOk(w, cls'[w.c], l) && Watched(cls', w.c, l)
  {
    ListFrom(ws, m, i);
    var k :| 0 <= k < |ws| && Survives(m, ws[k].c) && RelocList(ws, m)[i] == ws[k].(c := Reloc(m, ws[k].c));
    hide Moved, RelocList;
    MovedKeeps(cls, cls', rm, m, ws[k].c);
    assert InW(ws, ws[k].c);
  }

  lemma RelocCovers(cls: Cls, cls': Cls, rm: set<int>, m: map<int, int>, l: Lit, ws: seq<Watch>, q: int)
    requires Moved(cls, cls', rm, m) && ListOk(cls, l, ws) && Watched(cls', q, l)
    ensures InW(RelocList(ws, m), q)
  {
    var p :| p in cls && p !in rm && Reloc(m, p) == q;
    hide Moved, RelocList;
    MovedKeeps(cls, cls', rm, m, p);
    assert Watched(cls, p, l);
    assert InW(ws, p);
    var k :| 0 <= k < |ws| && ws[k].c == p;
    ListTo(ws, m, k);
  }

  // ---- the whole state ----

  function RelocAsn(a: Asn, m: map<int, int>): Asn {
    a.(reasons := RelocAll(a.reasons, m), why := RelocAll(a.why, m))
  }

  /** No removed clause is a reason. */
  ghost predicate NoReason(a: Asn, rm: set<int>) {
    forall k :: 0 <= k < |a.why| ==> a.why[k] !in rm
  }

  lemma RelocAsnOk(a: Asn, cls: Cls, cls': Cls, rm: set<int>, m: map<int, int>)
    requires AsnOk(a) && ReasonsOk(a, cls) && Moved(cls, cls', rm, m) && NoReason(a, rm)
    ensures AsnOk(RelocAsn(a, m)) && forall k :: 0 <= k < |a.why| ==> (Reloc(m, a.why[k]) == 0 <==> a.why[k] == 0)
  {
    RelocZero(a, cls, cls', rm, m);
    RelocVals(a, m);
    RelocNotes(a, m);
    hide ReasonsOk, NotesOk, ValsOk, TrailOk, Moved, NoReason, Reloc;
    RelocLev(a.lv, a.why, RelocAll(a.why, m), a.starts, a.level);
  }

  lemma RelocLev(lv: seq<int>, why: seq<int>, why': seq<int>, starts: seq<int>, level: int)
    requires |lv| == |why| == |why'| && LevOk(lv, why, starts, level)
    requires forall k :: 0 <= k < |why| ==> (why'[k] == 0 <==> why[k] == 0)
    ensures LevOk(lv, why', starts, level)
  {
  }

  lemma RelocVals(a: Asn, m: map<int, int>)
    requires Sizes(a) && ValsOk(a) && TrailOk(a)
    ensures var b := RelocAsn(a, m); Sizes(b) && ValsOk(b) && TrailOk(b)
  {
    hide Var, Not, Reloc;
  }

  lemma RelocNotes(a: Asn, m: map<int, int>)
    requires Sizes(a) && TrailOk(a) && NotesOk(a) && Reloc(m, 0) == 0
    requires var b := RelocAsn(a, m); Sizes(b) && TrailOk(b)
    ensures NotesOk(RelocAsn(a, m))
  {
  }

  lemma RelocZero(a: Asn, cls: Cls, cls': Cls, rm: set<int>, m: map<int, int>)
    requires Sizes(a) && ReasonsOk(a, cls) && Moved(cls, cls', rm, m) && NoReason(a, rm)
    ensures Reloc(m, 0) == 0
    ensures forall k :: 0 <= k < |a.why| ==> (Reloc(m, a.why[k]) == 0 <==> a.why[k] == 0)
  {
  }

  /** Removing and moving clauses keeps the invariant of assignment and clauses. */
  lemma RelocCore(a: Asn, cls: Cls, cls': Cls, rm: set<int>, m: map<int, int>)
    requires Core(a, cls) && Moved(cls, cls', rm, m) && NoReason(a, rm)
    ensures Core(RelocAsn(a, m), cls')
  {
    var b := RelocAsn(a, m);
    RelocAsnOk(a, cls, cls', rm, m);
    hide AsnOk, ClauseOk, Moved, Reloc;
    AsnSizes(a);
    AsnSizes(b);
    forall q | q in cls' ensures q > 0 && ClauseOk(|b.vals|, cls'[q]) {
      var p := MovedOnto(cls, cls', rm, m, q);
    }
    forall k | 0 <= k < |b.trail| && b.why[k] != 0 ensures b.why[k] in cls' && Forces(b, cls'[b.why[k]], k) {
      assert a.why[k] != 0 && a.why[k] !in rm;
      assert Forces(a, cls[a.why[k]], k);
      MovedKeeps(cls, cls', rm, m, a.why[k]);
    }
  }

  ghost function Image(s: set<int>, m: map<int, int>): set<int> {
    set p | p in s :: Reloc(m, p)
  }

  lemma ImageOf(ps: seq<int>, m: map<int, int>)
    ensures SetOf(RelocAll(ps, m)) == Image(SetOf(ps), m)
  {
  }

  /** Every entry of the watch lists is moved with its clause; there are no lists
    for the codes 0 and 1. */
  function RelocLists(ws: Lists, m: map<int, int>): (r: Lists)
    ensures |r| == |ws| && forall l :: 0 <= l < |ws| ==> r[l] == if l < 2 then ws[l] else RelocList(ws[l], m)
  {
    seq(|ws|, l requires 0 <= l < |ws| => if l < 2 then ws[l] else RelocList(ws[l], m))
  }

  lemma RelocBlock(a: Asn, cls: Cls, cls': Cls, added: set<int>, rm: set<int>, m: map<int, int>, h: int)
    requires Sizes(a) && Moved(cls, cls', rm, m) && added <= cls.Keys && added * rm == {}
    requires BlockOk(a, cls, added, h, 0, {})
    ensures BlockOk(RelocAsn(a, m), cls', Image(added, m), h, 0, {}) && Image(added, m) <= cls'.Keys
  {
    var b := RelocAsn(a, m);
    forall q | q in Image(added, m) ensures q in cls' && exists p :: p in added && Reloc(m, p) == q && cls'[q] == cls[p] {
      var p :| p in added && Reloc(m, p) == q;
      assert p !in rm by { assert p in rm ==> p in added * rm; }
      MovedKeeps(cls, cls', rm, m, p);
    }
    forall q, l | q in Image(added, m) && LitOk(b, l) && Watched(cls', q, l) && b.vals[l] == -1 && b.pos[Var(l)] < h
      ensures Blocked(b, cls'[q], b.levels[Var(l)])
    {
      var p :| p in added && Reloc(m, p) == q && cls'[q] == cls[p];
      assert Watched(cls, p, l);
      assert Blocked(a, cls[p], a.levels[Var(l)]);
      var t :| t in cls[p] && LitOk(a, t) && a.vals[t] == 1 && a.levels[Var(t)] <= a.levels[Var(l)];
    }
  }

  /** The main result: the collector keeps the invariant of the solver. */
  lemma RelocProp(a: Asn, cls: Cls, cls': Cls, added: set<int>, ws: Lists, h: int, rm: set<int>, m: map<int, int>)
    requires PropOk(a, cls, added, ws, h, 0, {}) && Moved(cls, cls', rm, m) && NoReason(a, rm) && added * rm == {}
    ensures PropOk(RelocAsn(a, m), cls', Image(added, m), RelocLists(ws, m), h, 0, {})
  {
    RelocCore(a, cls, cls', rm, m);
    AsnSizes(a);
    hide Core, AsnOk, Sizes;
    RelocBlock(a, cls, cls', added, rm, m, h);
    hide BlockOk, Moved, RelocList;
    forall l | 2 <= l < |a.vals| ensures ListOk(cls', l, RelocLists(ws, m)[l]) {
      assert ListOk(cls, l, ws[l]);
      RelocListOk(cls, cls', rm, m, l, ws[l]);
    }
  }

  // ---- when clauses are only taken out of the watch lists ----

  ghost function Gone(rms: seq<int>): map<int, int> {
    map p | p in rms :: 0
  }

  lemma GoneMoved(cls: Cls, rms: seq<int>)
    requires (forall p :: p in cls ==> p > 0) && forall p :: p in rms ==> p in cls
    ensures Moved(cls, cls - SetOf(rms), SetOf(rms), Gone(rms))
  {
  }

  /** The reasons are as before. */
  lemma GoneAsn(a: Asn, rms: seq<int>)
    requires (forall k :: 0 <= k < |a.why| ==> a.why[k] !in rms) && forall x :: 0 <= x < |a.reasons| ==> a.reasons[x] !in rms
    ensures RelocAsn(a, Gone(rms)) == a
  {
  }

  lemma {:induction false} ListSame(ws: seq<Watch>, m: map<int, int>)
    requires forall k :: 0 <= k < |ws| ==> ws[k].c !in m
    ensures RelocList(ws, m) == ws
  {
    if |ws| > 0 {
      ListSame(ws[..|ws| - 1], m);
    }
  }

  /** Filtering a list again changes nothing. */
  lemma ListTwice(ws: seq<Watch>, m: map<int, int>)
    requires forall p :: p in m ==> m[p] == 0
    ensures RelocList(RelocList(ws, m), m) == RelocList(ws, m)
  {
    hide RelocList;
    forall i | 0 <= i < |RelocList(ws, m)| ensures RelocList(ws, m)[i].c !in m {
      ListFrom(ws, m, i);
    }
    ListSame(RelocList(ws, m), m);
  }
}
