/** Making room for more variables changes nothing that is known of those there are
  (internal/xo/s.go:758-785, internal/xo/vars.go:65-85). */
module Growth {
  import opened Lits
  import opened Counting
  import opened Assignment
  import opened Clauses
  import opened Watching
  import opened Propagation
  import opened Resolution
  import opened Soundness
  import opened Search

  function Grown(a: Asn, w: int): Asn
    requires Sizes(a) && w >= |a.reasons|
  {
    a.(vals := Pad(a.vals, 2 * w, 0), levels := Pad(a.levels, w, 0), reasons := Pad(a.reasons, w, 0), pos := Pad(a.pos, w, 0))
  }

  lemma GrownVals(a: Asn, w: int)
    requires Sizes(a) && w >= |a.reasons| && ValsOk(a)
    ensures var b := Grown(a, w); Sizes(b) && ValsOk(b)
  {
    hide Pad, Not;
    var b := Grown(a, w);
    forall m: Lit | LitOk(b, m) ensures 0 <= Not(m) < |b.vals| && -1 <= b.vals[m] <= 1 && b.vals[Not(m)] == -b.vals[m] {
      NotFits(m, |a.reasons|);
      NotFits(m, w);
    }
  }

  lemma NotFits(m: Lit, n: int)
    ensures 0 <= Not(m) < 2 * n <==> 0 <= m < 2 * n
  {
  }

  lemma GrownTrail(a: Asn, w: int)
    requires Sizes(a) && w >= |a.reasons| && TrailOk(a)
    ensures var b := Grown(a, w); Sizes(b) && TrailOk(b)
  {
  }

  lemma GrownNotes(a: Asn, w: int)
    requires Sizes(a) && w >= |a.reasons| && TrailOk(a) && NotesOk(a)
    requires var b := Grown(a, w); Sizes(b) && TrailOk(b)
    ensures NotesOk(Grown(a, w))
  {
  }

  lemma GrownAsn(a: Asn, w: int)
    requires AsnOk(a) && w >= |a.reasons|
    ensures AsnOk(Grown(a, w))
  {
    GrownVals(a, w);
    GrownTrail(a, w);
    GrownNotes(a, w);
    hide ValsOk, TrailOk, NotesOk, Pad;
  }

  lemma GrownCore(a: Asn, cls: Cls, w: int)
    requires Core(a, cls) && Sizes(a) && w >= |a.reasons|
    ensures Core(Grown(a, w), cls)
  {
    GrownAsn(a, w);
    hide AsnOk, Pad;
    AsnSizes(Grown(a, w));
    forall k | 0 <= k < |a.trail| && a.why[k] != 0 ensures Forces(Grown(a, w), cls[a.why[k]], k) {
      assert Forces(a, cls[a.why[k]], k);
    }
  }

  lemma GrownWatches(cls: Cls, ws: Lists, n: int, n': int)
    requires WatchesOk(cls, ws, n) && ClsOk(n, cls) && 0 <= n <= n'
    ensures WatchesOk(cls, Pad(ws, n', []), n')
  {
  }

  lemma GrownBlocked(a: Asn, w: int, c: seq<Lit>, d: int)
    requires Sizes(a) && w >= |a.reasons| && Blocked(a, c, d)
    ensures Blocked(Grown(a, w), c, d)
  {
  }

  lemma GrownFalse(a: Asn, w: int, l: Lit)
    requires Sizes(a) && w >= |a.reasons|
    requires var b := Grown(a, w); LitOk(b, l) && b.vals[l] == -1
    ensures var b := Grown(a, w); LitOk(a, l) && a.vals[l] == -1 && b.levels[Var(l)] == a.levels[Var(l)] && b.pos[Var(l)] == a.pos[Var(l)]
  {
  }

  lemma GrownSettled(s: State, h: int, w: int)
    requires Settled(s, h) && Sizes(s.a) && w >= |s.a.reasons|
    ensures |s.ws| <= 2 * w && Settled(s.(a := Grown(s.a, w), ws := Pad(s.ws, 2 * w, [])), h)
  {
    hide AsnOk, WatchesOk, ReasonsOk, Pad, Grown, Blocked;
    WatchedSize(s.cls, s.ws, |s.a.vals|);
    GrownCore(s.a, s.cls, w);
    GrownWatches(s.cls, s.ws, |s.a.vals|, 2 * w);
    GrownSame(s.a, w);
    var b := Grown(s.a, w);
    forall p, l | p in s.full && LitOk(b, l) && Watched(s.cls, p, l) && b.vals[l] == -1 && b.pos[Var(l)] < h
      ensures Blocked(b, s.cls[p], b.levels[Var(l)])
    {
      GrownFalse(s.a, w, l);
      GrownBlocked(s.a, w, s.cls[p], s.a.levels[Var(l)]);
    }
  }

  lemma WatchedSize(cls: Cls, ws: Lists, n: int)
    requires WatchesOk(cls, ws, n)
    ensures |ws| == n
  {
  }

  lemma GrownSame(a: Asn, w: int)
    requires Sizes(a) && w >= |a.reasons|
    ensures var b := Grown(a, w); Sizes(b) && |b.vals| == 2 * w && |b.reasons| == w && b.trail == a.trail && b.lv == a.lv && b.why == a.why && b.level == a.level && b.starts == a.starts
  {
  }

  lemma GrownLow(s: State, w: int)
    requires Low(s) && Sizes(s.a) && w >= |s.a.reasons|
    ensures |s.ws| <= 2 * w && Low(s.(a := Grown(s.a, w), ws := Pad(s.ws, 2 * w, [])))
  {
    hide AsnOk, WatchesOk, ReasonsOk, Pad, Grown, Blocked;
    WatchedSize(s.cls, s.ws, |s.a.vals|);
    GrownCore(s.a, s.cls, w);
    GrownWatches(s.cls, s.ws, |s.a.vals|, 2 * w);
    GrownSame(s.a, w);
    var b := Grown(s.a, w);
    forall p, l | p in s.full && LitOk(b, l) && Watched(s.cls, p, l) && b.vals[l] == -1 && b.levels[Var(l)] < b.level
      ensures Blocked(b, s.cls[p], b.levels[Var(l)])
    {
      GrownFalse(s.a, w, l);
      GrownBlocked(s.a, w, s.cls[p], s.a.levels[Var(l)]);
    }
  }

  lemma GrownClash(s: State, w: int, c: int)
    requires Clash(s, c) && Sizes(s.a) && w >= |s.a.reasons| && |s.ws| <= 2 * w
    ensures Clash(s.(a := Grown(s.a, w), ws := Pad(s.ws, 2 * w, [])), c)
  {
    GrownLow(s, w);
    hide Low, Pad;
    var b := Grown(s.a, w);
    var m :| m in s.cls[c] && FalseNow(s.a, m);
    assert FalseNow(b, m);
  }

  lemma GrownGood(f: set<seq<Lit>>, s: State, s': State, w: int)
    requires Good(f, s) && Sizes(s.a) && w >= |s.a.reasons| && |s.ws| <= 2 * w
    requires s' == s.(a := Grown(s.a, w), ws := Pad(s.ws, 2 * w, []), seen := Pad(s.seen, w, false), pos := s'.pos)
    requires |s.pos| <= |s'.pos| == w && forall u :: 0 <= u < w ==> (s'.pos[u] != -1 <==> u >= |s.pos| || s.pos[u] != -1)
    ensures Good(f, s')
  {
  }
}
