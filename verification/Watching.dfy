/** Watch lists: every clause of two or more literals is named in the lists of
  its first two literals, and in no other (internal/xo/watch.go, trail.go). */
module Watching {
  import opened Lits
  import opened Assignment
  import opened Clauses

  /** A clause, a blocking literal of it, and whether it has two literals. */
  datatype Watch = Watch(c: int, other: Lit, bin: bool)

  type Lists = seq<seq<Watch>>   // per literal

  ghost predicate InW(ws: seq<Watch>, p: int) {
    exists k :: 0 <= k < |ws| && ws[k].c == p
  }

  ghost predicate WatchedIn(c: seq<Lit>, l: Lit) {
    |c| >= 2 && (c[0] == l || c[1] == l)
  }

  ghost predicate Watched(cls: Cls, p: int, l: Lit) {
    p in cls && WatchedIn(cls[p], l)
  }

  /** An entry of the list of l tells the truth about its clause c. */
  ghost predicate EntryOk(w: Watch, c: seq<Lit>, l: Lit) {
    w.other in c && w.other != l && w.bin == (|c| == 2)
  }

  /** The list of l names exactly the clauses that watch l, each once. */
  ghost predicate ListOk(cls: Cls, l: Lit, ws: seq<Watch>) {
    && (forall p {:trigger InW(ws, p)} {:trigger Watched(cls, p, l)} :: InW(ws, p) <==> Watched(cls, p, l))
    && (forall i, j :: 0 <= i < j < |ws| ==> ws[i].c != ws[j].c)
    && (forall i :: 0 <= i < |ws| ==> ws[i].c in cls && EntryOk(ws[i], cls[ws[i].c], l))
  }

  ghost predicate WatchesOk(cls: Cls, watches: Lists, n: int) {
    |watches| == n && forall l :: 2 <= l < n ==> ListOk(cls, l, watches[l])
  }

  // ---- the blocking invariant ----

  /** The clause holds a true literal that was assigned no later than level d. */
  ghost predicate Blocked(a: Asn, c: seq<Lit>, d: int)
    requires Sizes(a)
  {
    exists t :: t in c && LitOk(a, t) && a.vals[t] == 1 && a.levels[Var(t)] <= d
  }

  /** For the clauses given by the user: a false watched literal whose place is
    below h is blocked; the clauses in todo are excused for the literal m. */
  ghost predicate BlockOk(a: Asn, cls: Cls, added: set<int>, h: int, m: Lit, todo: set<int>)
    requires Sizes(a)
  {
    forall p, l {:trigger Watched(cls, p, l)} ::
      (&& p in added && LitOk(a, l) && Watched(cls, p, l)
       && a.vals[l] == -1 && a.pos[Var(l)] < h && !(l == m && p in todo))
      ==> Blocked(a, cls[p], a.levels[Var(l)])
  }

  /** What is left of it when a conflict cuts propagation short: the same for the
    literals assigned below the current level. */
  ghost predicate BlockLow(a: Asn, cls: Cls, added: set<int>)
    requires Sizes(a)
  {
    forall p, l {:trigger Watched(cls, p, l)} ::
      (&& p in added && LitOk(a, l) && Watched(cls, p, l)
       && a.vals[l] == -1 && a.levels[Var(l)] < a.level)
      ==> Blocked(a, cls[p], a.levels[Var(l)])
  }

  /** All literals still to be propagated were assigned at the current level. */
  ghost predicate QueueOk(a: Asn, h: int)
    requires Sizes(a)
  {
    0 <= h <= |a.trail| && forall k :: h <= k < |a.trail| ==> a.lv[k] == a.level
  }

  lemma AssignBlocked(a: Asn, m: Lit, c: int, d: seq<Lit>, l: int)
    requires AsnOk(a) && LitOk(a, m) && a.vals[m] == 0 && Blocked(a, d, l)
    ensures Blocked(Assigned(a, m, c), d, l)
  {
    hide Var, Not, IsPos, Mk, NotesOk, LevOk;
    LitFacts();
    var t :| t in d && LitOk(a, t) && a.vals[t] == 1 && a.levels[Var(t)] <= l;
    assert a.vals[Not(m)] == 0;
    var b := Assigned(a, m, c);
    assert b.vals[t] == 1 && b.levels[Var(t)] == a.levels[Var(t)];
  }

  lemma AssignBlockOk(a: Asn, cls: Cls, added: set<int>, h: int, m0: Lit, todo: set<int>, m: Lit, c: int)
    requires AsnOk(a) && LitOk(a, m) && a.vals[m] == 0 && h <= |a.trail|
    requires BlockOk(a, cls, added, h, m0, todo)
    ensures BlockOk(Assigned(a, m, c), cls, added, h, m0, todo)
  {
    var b := Assigned(a, m, c);
    forall p, l | p in added && LitOk(b, l) && Watched(cls, p, l) && b.vals[l] == -1 && b.pos[Var(l)] < h && !(l == m0 && p in todo)
      ensures Blocked(b, cls[p], b.levels[Var(l)])
    {
      AssignOldFalse(a, m, c, l);
      AssignBlocked(a, m, c, cls[p], a.levels[Var(l)]);
    }
  }

  lemma AssignOldFalse(a: Asn, m: Lit, c: int, l: Lit)
    requires AsnOk(a) && LitOk(a, m) && a.vals[m] == 0 && LitOk(a, l)
    requires var b := Assigned(a, m, c); b.vals[l] == -1 && b.pos[Var(l)] < |a.trail|
    ensures var b := Assigned(a, m, c);
      a.vals[l] == -1 && b.pos[Var(l)] == a.pos[Var(l)] && b.levels[Var(l)] == a.levels[Var(l)]
  {
    hide Var, Not, IsPos, Mk, NotesOk, LevOk;
    LitFacts();
    assert a.vals[Not(m)] == 0;
  }

  // ---- moving a watch ----

  /** Exchanging the two watched literals changes no list. */
  lemma SwapWatches(cls: Cls, watches: Lists, n: int, p: int)
    requires WatchesOk(cls, watches, n) && p in cls && |cls[p]| >= 2
    ensures WatchesOk(cls[p := Swap(cls[p], 0, 1)], watches, n)
  {
    var cls' := cls[p := Swap(cls[p], 0, 1)];
    forall l | 2 <= l < n ensures ListOk(cls', l, watches[l]) {
      assert forall q :: Watched(cls', q, l) <==> Watched(cls, q, l);
      SwapEntries(cls, watches[l], l, p, 0, 1);
    }
  }

  lemma SwapEntries(cls: Cls, ws: seq<Watch>, l: Lit, p: int, i: int, j: int)
    requires ListOk(cls, l, ws) && p in cls && 0 <= i < |cls[p]| && 0 <= j < |cls[p]|
    ensures var cls' := cls[p := Swap(cls[p], i, j)];
      forall i :: 0 <= i < |ws| ==> ws[i].c in cls' && EntryOk(ws[i], cls'[ws[i].c], l)
  {
    var cls' := cls[p := Swap(cls[p], i, j)];
    SwapReorders(cls, p, i, j);
    forall i | 0 <= i < |ws| ensures ws[i].c in cls' && EntryOk(ws[i], cls'[ws[i].c], l) {
      ReorderedLits(cls, cls', ws[i].c);
    }
  }

  function Without<T>(s: seq<T>, i: int): seq<T>
    requires 0 <= i < |s|
  {
    s[..i] + s[i + 1..]
  }

  /** Clause p, at place i of the list of its w-th watched literal m, gives m up
    and watches its j-th literal instead. */
  lemma MoveWatch(cls: Cls, watches: Lists, n: int, p: int, w: int, j: int, i: int)
    requires WatchesOk(cls, watches, n) && ClsOk(n, cls)
    requires p in cls && 0 <= w < 2 <= j < |cls[p]|
    requires 0 <= i < |watches[cls[p][w]]| && watches[cls[p][w]][i].c == p
    ensures var c := cls[p]; var m := c[w]; var k := c[j];
      WatchesOk(cls[p := Swap(c, w, j)],
        watches[m := Without(watches[m], i)][k := watches[k] + [Watch(p, m, false)]], n)
  {
    hide Var;
    var c := cls[p];
    var m, k := c[w], c[j];
    var cls' := cls[p := Swap(c, w, j)];
    var watches' := watches[m := Without(watches[m], i)][k := watches[k] + [Watch(p, m, false)]];
    assert Distinct(c) by { hide ClauseOk; Distinctness(n, c); }
    forall l | 2 <= l < n ensures ListOk(cls', l, watches'[l]) {
      SwapEntries(cls, watches[l], l, p, w, j);
      if l == m {
        MoveFrom(cls, watches[m], p, w, j, i);
      } else if l == k {
        MoveTo(cls, watches[k], p, w, j);
      } else {
        assert forall q :: Watched(cls', q, l) <==> Watched(cls, q, l);
      }
    }
  }

  ghost predicate Distinct(c: seq<Lit>) {
    forall i, j :: 0 <= i < j < |c| ==> c[i] != c[j]
  }

  lemma Distinctness(n: int, c: seq<Lit>)
    requires ClauseOk(n, c)
    ensures Distinct(c)
  {
  }

  lemma MoveFrom(cls: Cls, ws: seq<Watch>, p: int, w: int, j: int, i: int)
    requires p in cls && 0 <= w < 2 <= j < |cls[p]| && Distinct(cls[p])
    requires ListOk(cls, cls[p][w], ws) && 0 <= i < |ws| && ws[i].c == p
    ensures ListOk(cls[p := Swap(cls[p], w, j)], cls[p][w], Without(ws, i))
  {
    var m := cls[p][w];
    var cls' := cls[p := Swap(cls[p], w, j)];
    var ws' := Without(ws, i);
    SwapEntries(cls, ws, m, p, w, j);
    forall q ensures InW(ws', q) <==> Watched(cls', q, m) {
      assert Watched(cls', q, m) <==> Watched(cls, q, m) && q != p;
      if InW(ws, q) && q != p {
        var x :| 0 <= x < |ws| && ws[x].c == q;
        assert ws'[if x < i then x else x - 1].c == q;
      }
      if InW(ws', q) {
        var x :| 0 <= x < |ws'| && ws'[x].c == q;
        assert ws'[x] == ws[if x < i then x else x + 1];
      }
    }
    assert forall x :: 0 <= x < |ws'| ==> ws'[x] == ws[if x < i then x else x + 1];
  }

  lemma MoveTo(cls: Cls, ws: seq<Watch>, p: int, w: int, j: int)
    requires p in cls && 0 <= w < 2 <= j < |cls[p]| && Distinct(cls[p])
    requires ListOk(cls, cls[p][j], ws)
    ensures ListOk(cls[p := Swap(cls[p], w, j)], cls[p][j], ws + [Watch(p, cls[p][w], false)])
  {
    var c, k := cls[p], cls[p][j];
    var cls' := cls[p := Swap(c, w, j)];
    var ws' := ws + [Watch(p, c[w], false)];
    SwapEntries(cls, ws, k, p, w, j);
    assert !Watched(cls, p, k);
    assert !InW(ws, p);
    assert Swap(c, w, j)[j] == c[w];
    assert forall q :: InW(ws', q) <==> InW(ws, q) || q == p by {
      forall q | InW(ws, q) ensures InW(ws', q) {
        var x :| 0 <= x < |ws| && ws[x].c == q;
        assert ws'[x].c == q;
      }
      assert ws'[|ws|].c == p;
    }
    assert forall q :: Watched(cls', q, k) <==> Watched(cls, q, k) || q == p;
  }

  // ---- the blocking invariant through one visit ----

  /** Once clause q is blocked, or no longer watches m, it is done. */
  lemma BlockDone(a: Asn, cls: Cls, added: set<int>, h: int, m: Lit, todo: set<int>, q: int)
    requires Sizes(a) && LitOk(a, m) && BlockOk(a, cls, added, h, m, todo)
    requires q in cls && (!Watched(cls, q, m) || Blocked(a, cls[q], a.levels[Var(m)]))
    ensures BlockOk(a, cls, added, h, m, todo - {q})
  {
  }

  lemma ReorderedBlocked(a: Asn, c0: seq<Lit>, c1: seq<Lit>, d: int)
    requires Sizes(a) && multiset(c0) == multiset(c1) && Blocked(a, c0, d)
    ensures Blocked(a, c1, d)
  {
    var t :| t in c0 && LitOk(a, t) && a.vals[t] == 1 && a.levels[Var(t)] <= d;
    assert t in multiset(c0);
    assert t in c1;
  }

  /** Reordering clause q, where every literal it newly watches is not false. */
  lemma SwapBlock(a: Asn, cls: Cls, added: set<int>, h: int, m: Lit, todo: set<int>, q: int, i: int, j: int)
    requires Sizes(a) && BlockOk(a, cls, added, h, m, todo)
    requires q in cls && 0 <= i < 2 <= |cls[q]| && 0 <= j < |cls[q]|
    requires 0 <= cls[q][j] < |a.vals|
    requires j < 2 || a.vals[cls[q][j]] != -1
    ensures BlockOk(a, cls[q := Swap(cls[q], i, j)], added, h, m, todo)
  {
    var cls' := cls[q := Swap(cls[q], i, j)];
    forall p, l | p in added && LitOk(a, l) && Watched(cls', p, l) && a.vals[l] == -1 && a.pos[Var(l)] < h && !(l == m && p in todo)
      ensures Blocked(a, cls'[p], a.levels[Var(l)])
    {
      if p == q {
        SwapWatched(cls[q], i, j, l);
        assert Watched(cls, q, l);
        ReorderedBlocked(a, cls[q], cls'[q], a.levels[Var(l)]);
      } else {
        assert Watched(cls, p, l);
      }
    }
  }

  lemma SwapWatched(c: seq<Lit>, i: int, j: int, l: Lit)
    requires 0 <= i < 2 <= |c| && 0 <= j < |c|
    requires WatchedIn(Swap(c, i, j), l)
    ensures WatchedIn(c, l) || l == c[j]
    ensures multiset(Swap(c, i, j)) == multiset(c)
  {
  }

  /** The start of propagating m = Not(trail[h]): all clauses that watch m are due. */
  lemma BlockStart(a: Asn, cls: Cls, added: set<int>, h: int, m: Lit, todo: set<int>)
    requires AsnOk(a) && 0 <= h < |a.trail| && m == Not(a.trail[h])
    requires BlockOk(a, cls, added, h, 0, {})
    requires forall p :: Watched(cls, p, m) ==> p in todo
    ensures BlockOk(a, cls, added, h + 1, m, todo)
  {
    hide Var, Not, IsPos, Mk, NotesOk, LevOk;
    LitFacts();
    forall p, l | p in added && LitOk(a, l) && Watched(cls, p, l) && a.vals[l] == -1 && a.pos[Var(l)] < h + 1 && !(l == m && p in todo)
      ensures a.pos[Var(l)] < h
    {
      assert a.vals[Not(l)] == 1;
      assert a.trail[a.pos[Var(l)]] == Not(l);
    }
  }

  lemma BlockEnd(a: Asn, cls: Cls, added: set<int>, h: int, m: Lit)
    requires Sizes(a) && BlockOk(a, cls, added, h, m, {})
    ensures BlockOk(a, cls, added, h, 0, {})
  {
  }

  /** A literal assigned below the current level is not waiting for propagation. */
  lemma LowIsDone(a: Asn, h: int, l: Lit)
    requires AsnOk(a) && QueueOk(a, h) && LitOk(a, l) && a.vals[l] == -1 && a.levels[Var(l)] < a.level
    ensures a.pos[Var(l)] < h
  {
    hide Var, Not, IsPos, Mk, LevOk;
    LitFacts();
    assert a.vals[Not(l)] == 1;
    assert a.trail[a.pos[Var(l)]] == Not(l);
  }

  lemma BlockConflict(a: Asn, cls: Cls, added: set<int>, h: int, m: Lit, todo: set<int>)
    requires AsnOk(a) && QueueOk(a, h) && BlockOk(a, cls, added, h, m, todo)
    requires LitOk(a, m) && a.levels[Var(m)] == a.level
    ensures BlockLow(a, cls, added)
  {
    forall p, l | p in added && LitOk(a, l) && Watched(cls, p, l) && a.vals[l] == -1 && a.levels[Var(l)] < a.level
      ensures Blocked(a, cls[p], a.levels[Var(l)])
    {
      LowIsDone(a, h, l);
    }
  }

  // ---- a new clause ----

  /** The lists with clause c, stored at p, entered for its first two literals. */
  function WithWatches(watches: Lists, p: int, c: seq<Lit>): Lists
    requires forall i :: 0 <= i < |c| ==> 0 <= c[i] < |watches|
  {
    if |c| < 2 then watches
    else
      var w := watches[c[0] := watches[c[0]] + [Watch(p, c[1], |c| == 2)]];
      w[c[1] := w[c[1]] + [Watch(p, c[0], |c| == 2)]]
  }

  lemma AddWatches(cls: Cls, watches: Lists, n: int, p: int, c: seq<Lit>)
    requires WatchesOk(cls, watches, n) && p !in cls && ClauseOk(n, c)
    ensures WatchesOk(cls[p := c], WithWatches(watches, p, c), n)
  {
    hide Var;
    var cls', watches' := cls[p := c], WithWatches(watches, p, c);
    if |c| >= 2 { DistinctPair(n, c); }
    hide ClauseOk;
    forall l | 2 <= l < n ensures ListOk(cls', l, watches'[l]) {
      ListWeaken(cls, watches[l], l, p, c);
      if |c| >= 2 && l == c[0] {
        ListAppend(cls, watches[l], l, p, c, c[1]);
      } else if |c| >= 2 && l == c[1] {
        ListAppend(cls, watches[l], l, p, c, c[0]);
      }
    }
  }

  lemma DistinctPair(n: int, c: seq<Lit>)
    requires ClauseOk(n, c) && |c| >= 2
    ensures c[0] != c[1] && 2 <= c[0] < n && 2 <= c[1] < n
  {
  }

  lemma ListWeaken(cls: Cls, ws: seq<Watch>, l: Lit, p: int, c: seq<Lit>)
    requires ListOk(cls, l, ws) && p !in cls
    ensures !WatchedIn(c, l) ==> ListOk(cls[p := c], l, ws)
    ensures !InW(ws, p)
  {
  }

  lemma ListAppend(cls: Cls, ws: seq<Watch>, l: Lit, p: int, c: seq<Lit>, o: Lit)
    requires ListOk(cls, l, ws) && p !in cls && !InW(ws, p) && WatchedIn(c, l) && o in c && o != l
    ensures ListOk(cls[p := c], l, ws + [Watch(p, o, |c| == 2)])
  {
    var ws' := ws + [Watch(p, o, |c| == 2)];
    forall q ensures InW(ws', q) <==> InW(ws, q) || q == p {
      if InW(ws, q) {
        var x :| 0 <= x < |ws| && ws[x].c == q;
        assert ws'[x].c == q;
      }
      assert ws'[|ws|].c == p;
    }
    assert forall q :: Watched(cls[p := c], q, l) <==> Watched(cls, q, l) || q == p;
  }
}
