/** The flat clause store (internal/xo/cdat.go): one list of words in which a
  clause is a header word, its literals and the null literal.  A clause is named
  by the place of its first literal; its header holds its size modulo 32. */
module FlatStore {
  import opened Lits
  import opened Clauses
  import opened Headers

  /** The words at place p are clause c. */
  ghost predicate Stored(d: seq<int>, p: int, c: seq<Lit>) {
    && 1 <= p && p + |c| < |d|
    && SizeBits(d[p - 1]) == |c| % SIZE_MOD
    && (forall i :: 0 <= i < |c| ==> d[p + i] == c[i] && c[i] != NULL)
    && d[p + |c|] == NULL
  }

  ghost predicate AllStored(d: seq<int>, cls: Cls) {
    forall p :: p in cls ==> Stored(d, p, cls[p])
  }

  /** locs are the places of the clauses in order; they fill the store without gaps. */
  ghost predicate Layout(n: int, cls: Cls, locs: seq<int>) {
    && (forall p :: p in cls <==> p in locs)
    && (forall x :: 0 <= x < |locs| ==> locs[x] in cls)
    && (forall x, y :: 0 <= x < y < |locs| ==>
          var e := locs[x] + |cls[locs[x]]| + 2; e <= locs[y] && (y == x + 1 ==> e == locs[y]))
    && (if |locs| == 0 then n == 0 else locs[0] == 1 && locs[|locs| - 1] + |cls[locs[|locs| - 1]]| + 2 == n + 1)
  }

  // copy(D[dst:], D[from:to])
  function Copied(d: seq<int>, dst: int, from: int, to: int): (r: seq<int>)
    requires 0 <= dst <= from <= to <= |d|
    ensures |r| == |d|
  {
    d[..dst] + d[from..to] + d[dst + (to - from)..]
  }

  class CDat {
    var D: seq<int>
    var bumpInc: nat     // what a use of a clause adds to its heat
    ghost var Cls: Cls
    ghost var Locs: seq<int>

    ghost predicate Valid()
      reads this
    {
      Layout(|D|, Cls, Locs) && AllStored(D, Cls)
    }

    constructor ()
      ensures Valid() && Cls == map[]
    {
      D, Cls, Locs := [], map[], [];
      bumpInc := 1;
    }

    /** Appends a clause and returns its place. */
    method AddLits(hdr: int, ms: seq<Lit>) returns (res: int)
      requires Valid()
      requires SizeBits(hdr) == |ms| % SIZE_MOD && NULL !in ms
      modifies this
      ensures Valid()
      ensures res > 0 && res !in old(Cls) && Cls == old(Cls)[res := ms]
      ensures D == old(D) + [hdr] + ms + [NULL] && res == |old(D)| + 1 && Locs == old(Locs) + [res]
    {
      hide Layout, Stored;
      AppendStored(D, Cls, Locs, hdr, ms);
      res := |D| + 1;
      D := D + [hdr] + ms + [NULL];
      Cls := Cls[res := ms];
      Locs := Locs + [res];
    }

    /** Exchanges two literals of a clause. */
    method Swap(p: int, i: int, j: int)
      requires Valid() && p in Cls && 0 <= i < |Cls[p]| && 0 <= j < |Cls[p]|
      modifies this
      ensures Valid() && Locs == old(Locs)
      ensures Cls == old(Cls)[p := Clauses.Swap(old(Cls)[p], i, j)]
    {
      hide Layout, Stored, Clauses.Swap;
      SwapStored(D, Cls, Locs, p, i, j);
      D := D[p + i := D[p + j]][p + j := D[p + i]];
      Cls := Cls[p := Clauses.Swap(Cls[p], i, j)];
    }

    /** Replaces the header of a clause by one for the same size. */
    method SetChd(p: int, h: int)
      requires Valid() && p in Cls && 1 <= p <= |D| && SizeBits(h) == SizeBits(D[p - 1])
      modifies this`D
      ensures Valid() && 1 <= p <= |D| && D == old(D)[p - 1 := h]
    {
      hide Layout, Stored;
      HeaderStored(D, Cls, Locs, p, h);
      D := D[p - 1 := h];
    }

    /** Heats clause p up; tells whether it is now as hot as can be. */
    method Bump(p: int) returns (full: bool)
      requires Valid() && p in Cls
      modifies this`D
      ensures Valid() && 1 <= p <= |D| == |old(D)| && D == old(D)[p - 1 := Bumped(old(D)[p - 1], bumpInc)]
      ensures full == HeatFull(old(D)[p - 1], bumpInc)
    {
      hide Layout, Stored, Bumped, HeatFull, SizeBits;
      HeaderPlace(D, Cls, p);
      var h := D[p - 1];
      SizeKept(h, bumpInc);
      full := HeatFull(h, bumpInc);
      SetChd(p, Bumped(h, bumpInc));
    }

    // the heat of clauses is relative to a step that grows
    method Decay()
      modifies this`bumpInc
      ensures bumpInc == (old(bumpInc) + 5) % WORD
    {
      bumpInc := (bumpInc + 5) % WORD;
    }

    /** The literals of the clause c at p, appended to ms0. */
    method Load(p: int, ms0: seq<Lit>, ghost c: seq<Lit>) returns (ms: seq<Lit>)
      requires Stored(D, p, c)
      ensures ms == ms0 + c
    {
      var r := Next(p, c);
      var e := r - 2;
      assert D[p..e] == c;
      ms := ms0 + D[p..e];
    }

    /** All clauses in order, with their places; on an empty store the source divides
      by zero, and then ok is false. */
    method Forall() returns (ok: bool, cs: seq<(int, seq<Lit>)>)
      requires Valid()
      ensures ok <==> Cls != map[]
      ensures ok ==> |cs| == |Locs| && forall x :: 0 <= x < |cs| ==> cs[x] == (Locs[x], Cls[Locs[x]])
    {
      hide Stored, AllStored;
      if |D| == 0 {
        assert Locs == [];
        assert forall p :: p !in Cls;
        return false, [];
      }
      assert Locs[0] in Cls;
      ok, cs := true, [];
      var q := 1;
      while q < |D|
        invariant |cs| <= |Locs| && q == PlaceAt(|D|, Locs, |cs|)
        invariant forall x :: 0 <= x < |cs| ==> cs[x] == (Locs[x], Cls[Locs[x]])
        decreases |Locs| - |cs|
      {
        NextPlace(|D|, Cls, Locs, |cs|);
        assert q == Locs[|cs|];
        StoredAt(D, Cls, q);
        var ms := Load(q, [], Cls[q]);
        assert ms == Cls[q];
        var r := Next(q, Cls[q]);
        cs := cs + [(q, ms)];
        q := r;
      }
      if |cs| < |Locs| {
        NextPlace(|D|, Cls, Locs, |cs|);
      }
    }

    /** The place after the clause c at loc: its null is found although the header
      tells its size only modulo 32. */
    method Next(loc: int, ghost c: seq<Lit>) returns (r: int)
      requires Stored(D, loc, c)
      ensures r == loc + |c| + 2
    {
      var szModulus := SizeBits(D[loc - 1]);
      var i := 0;
      var j := loc + szModulus;
      while D[j] != NULL
        invariant i >= 0 && j == loc + i * SIZE_MOD + szModulus && j - loc <= |c|
        invariant D[j] == if j - loc == |c| then NULL else c[j - loc]
        decreases loc + |c| - j
      {
        i := i + 1;
        j := loc + i * SIZE_MOD + szModulus;
        assert |c| % SIZE_MOD == szModulus;
      }
      r := j + 2;
    }

    /** Removes the clauses at the places rm, moving the others down.  The result
      tells where the moved clauses are, and 0 for the removed ones. */
    method Compact(rm: seq<int>) returns (locMap: map<int, int>, freed: int)
      requires Valid() && Ascending(rm, Cls)
      modifies this
      ensures Valid() && freed == |old(D)| - |D|
      ensures Moved(old(Cls), Cls, SetOf(rm), locMap)
      ensures HeadersKept(old(D), D, old(Cls), SetOf(rm), locMap)
    {
      hide Layout, Stored, AllStored, Moved, Packing, PlaceAt, HeadersKept, Copied;
      ghost var d0, cls, locs, gone := D, Cls, Locs, SetOf(rm);
      if |rm| == 0 {
        assert forall p :: p !in gone;
        locMap, freed := map[], 0;
        MovedNone(|D|, Cls, Locs, gone, locMap);
        HeadersNone(D, Cls, Locs, gone, locMap);
        return;
      }
      locMap, freed := pack(rm);
    }

    /** The same when there is something to remove. */
    method pack(rm: seq<int>) returns (locMap: map<int, int>, freed: int)
      requires Valid() && |rm| > 0 && Ascending(rm, Cls)
      modifies this
      ensures Valid() && freed == |old(D)| - |D|
      ensures Moved(old(Cls), Cls, SetOf(rm), locMap)
      ensures HeadersKept(old(D), D, old(Cls), SetOf(rm), locMap)
    {
      hide Layout, Stored, AllStored, Moved, Going, HeadersKept, Copied, SetOf, Ascending;
      ghost var d0, cls, locs, gone := D, Cls, Locs, SetOf(rm);
      locMap := map[rm[0] := 0];
      var i := 0;
      var dst := rm[0] - 1;
      FirstIn(rm, cls);
      StoredAt(D, cls, rm[0]);
      var cur := Next(rm[0], cls[rm[0]]);
      var end := |D|;
      ghost var x, out := PackStart(d0, cls, locs, rm, gone, locMap, cur);
      while cur < end
        invariant Going(d0, D, cls, locs, rm, gone, locMap, i, x, cur, dst, out)
        decreases |locs| - x
      {
        ghost var c := PackOn(d0, D, cls, locs, rm, gone, locMap, i, x, cur, dst, out);
        var nrm := if i + 1 < |rm| then rm[i + 1] else 0;
        var nxt := Next(cur, c);
        if cur == nrm {
          locMap := locMap[cur := 0];
          i := i + 1;
        } else {
          var curLen := nxt - cur;
          D := Copied(D, dst, cur - 1, nxt - 1);
          locMap := locMap[cur := dst + 1];
          out := Out(out.cls[dst + 1 := c], out.locs + [dst + 1]);
          dst := dst + curLen;
        }
        cur := nxt;
        x := x + 1;
      }
      PackEnd(d0, D, cls, locs, x, rm, gone, locMap, i, cur, dst, out);
      freed := |D| - dst;
      truncate(dst, out);
    }

    /** Cuts the words off that are not in use any more. */
    method truncate(n: int, ghost out: Out)
      requires 0 <= n <= |D| && Layout(|D[..n]|, out.cls, out.locs) && AllStored(D[..n], out.cls)
      modifies this
      ensures Valid() && D == old(D)[..n] && Cls == out.cls && Locs == out.locs
    {
      D, Cls, Locs := D[..n], out.cls, out.locs;
    }
  }

  lemma StoredAt(d: seq<int>, cls: Cls, p: int)
    requires AllStored(d, cls) && p in cls
    ensures Stored(d, p, cls[p])
  {
  }

  /** Places of clauses in ascending order. */
  ghost predicate Ascending(rm: seq<int>, cls: Cls) {
    && (forall k :: 0 <= k < |rm| ==> rm[k] in cls)
    && (forall j, k :: 0 <= j < k < |rm| ==> rm[j] < rm[k])
  }

  lemma FirstIn(rm: seq<int>, cls: Cls)
    requires |rm| > 0 && Ascending(rm, cls)
    ensures rm[0] in cls
  {
  }

  /** The places to be removed below cur are those up to the i-th. */
  ghost predicate Upto(rm: seq<int>, i: int, cur: int) {
    forall k :: 0 <= k < |rm| ==> (k <= i <==> rm[k] < cur)
  }

  /** Where a clause is after compaction. */
  function Reloc(m: map<int, int>, p: int): int {
    if p in m then m[p] else p
  }

  /** What compaction does to the clauses: those in rm go, every other is found
    where the map says, unchanged, no two in one place, and there are no others. */
  ghost predicate Moved(cls: Cls, cls': Cls, rm: set<int>, m: map<int, int>) {
    && (forall p :: p in m ==> p > 0)
    && (forall p :: p in rm ==> p in m && m[p] == 0)
    && (forall p :: p in cls && p !in rm ==> Reloc(m, p) in cls' && Reloc(m, p) > 0 && cls'[Reloc(m, p)] == cls[p])
    && (forall q :: q in cls' ==> exists p :: p in cls && p !in rm && Reloc(m, p) == q)
    && (forall p, q :: p in cls && q in cls && p !in rm && q !in rm && p < q ==> Reloc(m, p) < Reloc(m, q))
  }

  /** Each clause that stays has its header with it. */
  ghost predicate HeadersKept(d0: seq<int>, d: seq<int>, cls: Cls, rm: set<int>, m: map<int, int>) {
    forall p :: p in cls && p !in rm ==> 1 <= p <= |d0| && 1 <= Reloc(m, p) <= |d| && d[Reloc(m, p) - 1] == d0[p - 1]
  }

  /** The same for the clauses below cur, now in the words up to dst. */
  ghost predicate HeadersBelow(d0: seq<int>, d: seq<int>, cls: Cls, rm: set<int>, m: map<int, int>, cur: int, dst: int) {
    && |d| == |d0| && dst <= |d|
    && forall p :: p in cls && p < cur && p !in rm ==> 1 <= p <= |d0| && 1 <= Reloc(m, p) <= dst && d[Reloc(m, p) - 1] == d0[p - 1]
  }

  lemma HeadersNone(d: seq<int>, cls: Cls, locs: seq<int>, rm: set<int>, m: map<int, int>)
    requires Layout(|d|, cls, locs) && m == map[]
    ensures HeadersKept(d, d, cls, rm, m)
  {
  }

  lemma HeadersStart(d0: seq<int>, cls: Cls, locs: seq<int>, rm: seq<int>, gone: set<int>, m: map<int, int>, cur: int)
    requires Layout(|d0|, cls, locs) && |rm| > 0 && rm[0] in cls && gone == SetOf(rm) && m == map[rm[0] := 0]
    requires cur == rm[0] + |cls[rm[0]]| + 2
    ensures HeadersBelow(d0, d0, cls, gone, m, cur, rm[0] - 1)
  {
  }

  lemma HeadersSkip(d0: seq<int>, d: seq<int>, cls: Cls, gone: set<int>, m: map<int, int>, cur: int, dst: int, nxt: int)
    requires HeadersBelow(d0, d, cls, gone, m, cur, dst) && cur in gone && forall p :: p in cls && p > cur ==> p >= nxt
    ensures HeadersBelow(d0, d, cls, gone, m[cur := 0], nxt, dst)
  {
  }

  lemma HeadersMove(d0: seq<int>, d: seq<int>, cls: Cls, gone: set<int>, m: map<int, int>, cur: int, dst: int, nxt: int)
    requires HeadersBelow(d0, d, cls, gone, m, cur, dst) && forall p :: p in cls && p > cur ==> p >= nxt
    requires 0 <= dst < cur < nxt <= |d| + 1 && d[cur - 1] == d0[cur - 1]
    ensures dst + (nxt - cur) <= |d|
    ensures HeadersBelow(d0, Copied(d, dst, cur - 1, nxt - 1), cls, gone, m[cur := dst + 1], nxt, dst + (nxt - cur))
  {
  }

  lemma HeadersEnd(d0: seq<int>, d: seq<int>, cls: Cls, locs: seq<int>, x: int, gone: set<int>, m: map<int, int>, cur: int, dst: int)
    requires Layout(|d0|, cls, locs) && 0 <= x <= |locs| && cur == PlaceAt(|d0|, locs, x) && cur >= |d0|
    requires HeadersBelow(d0, d, cls, gone, m, cur, dst) && 0 <= dst <= |d|
    ensures HeadersKept(d0, d[..dst], cls, gone, m)
  {
  }

  lemma PackWords(d0: seq<int>, d: seq<int>, cur: int, dst: int, outCls: Cls, c: seq<Lit>)
    requires Packed(d0, d, cur, dst, outCls) && Stored(d, cur, c)
    ensures 0 <= dst < cur && cur + |c| + 2 <= |d| + 1 && d[cur - 1] == d0[cur - 1]
  {
  }

  lemma MovedNone(n: int, cls: Cls, locs: seq<int>, rm: set<int>, m: map<int, int>)
    requires Layout(n, cls, locs) && rm == {} && m == map[]
    ensures Moved(cls, cls, rm, m)
  {
  }

  /** The clauses at places below k. */
  ghost function Below(cls: Cls, k: int): Cls {
    map p | p in cls && p < k :: cls[p]
  }

  lemma BelowNext(cls: Cls, cur: int, nxt: int)
    requires cur in cls && cur < nxt && forall p :: p in cls && p > cur ==> p >= nxt
    ensures Below(cls, nxt) == Below(cls, cur)[cur := cls[cur]]
    ensures forall p :: p in Below(cls, cur) ==> p < cur
  {
  }

  /** Compaction of one clause more, which is removed. */
  lemma MovedSkip(cls: Cls, outCls: Cls, rm: set<int>, m: map<int, int>, cur: int, c: seq<Lit>, rm': set<int>)
    requires Moved(cls, outCls, rm, m) && cur > 0 && forall p :: p in cls ==> p < cur
    requires forall p :: p in rm' <==> p in rm || p == cur
    ensures Moved(cls[cur := c], outCls, rm', m[cur := 0])
  {
    var cls', m' := cls[cur := c], m[cur := 0];
    assert forall p :: p in cls ==> Reloc(m', p) == Reloc(m, p);
    hide Reloc;
    forall q | q in outCls ensures exists p :: p in cls' && p !in rm' && Reloc(m', p) == q {
      var p :| p in cls && p !in rm && Reloc(m, p) == q;
      assert Reloc(m', p) == q;
    }
  }

  /** Compaction of one clause more, which is moved to q, beyond all others. */
  lemma MovedMove(cls: Cls, outCls: Cls, rm: set<int>, m: map<int, int>, cur: int, c: seq<Lit>, k: int)
    requires Moved(cls, outCls, rm, m) && cur > 0 && forall p :: p in cls ==> p < cur
    requires k > 0 && cur !in rm && forall q :: q in outCls ==> q < k
    ensures Moved(cls[cur := c], outCls[k := c], rm, m[cur := k])
  {
    var m', outCls' := m[cur := k], outCls[k := c];
    assert Reloc(m', cur) == k;
    assert forall p :: p in cls ==> Reloc(m', p) == Reloc(m, p);
    hide Reloc;
    forall q | q in outCls' ensures exists p :: p in cls[cur := c] && p !in rm && Reloc(m', p) == q {
      if q != k {
        var p :| p in cls && p !in rm && Reloc(m, p) == q;
        assert Reloc(m', p) == q;
      }
    }
  }

  /** The words so far: the survivors up to dst, from cur on as it was. */
  ghost predicate Packed(d0: seq<int>, d: seq<int>, cur: int, dst: int, outCls: Cls) {
    && |d| == |d0| && 0 <= dst < cur <= |d0| + 1 && d[cur - 1..] == d0[cur - 1..]
    && AllStored(d[..dst], outCls)
  }

  /** The clauses already in place and where they are. */
  datatype Out = Out(cls: Cls, locs: seq<int>)

  ghost function GoneBelow(gone: set<int>, cur: int): set<int> {
    set p | p in gone && p < cur
  }

  /** Compaction so far: the clauses below cur are dealt with. */
  ghost predicate Packing(d0: seq<int>, d: seq<int>, cls: Cls, gone: set<int>, m: map<int, int>, cur: int, dst: int, out: Out) {
    && Layout(dst, out.cls, out.locs) && Packed(d0, d, cur, dst, out.cls)
    && Moved(Below(cls, cur), out.cls, GoneBelow(gone, cur), m) && HeadersBelow(d0, d, cls, gone, m, cur, dst)
  }

  lemma LayoutEnd(n: int, cls: Cls, locs: seq<int>, p: int)
    requires Layout(n, cls, locs) && p in cls
    ensures 1 <= p && p + |cls[p]| + 1 <= n
  {
  }

  lemma LayoutAppend(n: int, cls: Cls, locs: seq<int>, ms: seq<Lit>)
    requires Layout(n, cls, locs)
    ensures n + 1 !in cls
    ensures Layout(n + |ms| + 2, cls[n + 1 := ms], locs + [n + 1])
  {
  }

  lemma AppendStored(d: seq<int>, cls: Cls, locs: seq<int>, hdr: int, ms: seq<Lit>)
    requires Layout(|d|, cls, locs) && AllStored(d, cls)
    requires SizeBits(hdr) == |ms| % SIZE_MOD && NULL !in ms
    ensures |d| + 1 !in cls
    ensures var d' := d + [hdr] + ms + [NULL]; var cls' := cls[|d| + 1 := ms];
      Layout(|d'|, cls', locs + [|d| + 1]) && AllStored(d', cls')
  {
    LayoutAppend(|d|, cls, locs, ms);
    hide Layout;
    var d' := d + [hdr] + ms + [NULL];
    forall q | q in cls ensures Stored(d', q, cls[q]) {
      assert Stored(d, q, cls[q]);
    }
  }

  /** Two clauses do not overlap. */
  lemma Apart(n: int, cls: Cls, locs: seq<int>, p: int, q: int)
    requires Layout(n, cls, locs) && p in cls && q in cls && p < q
    ensures p + |cls[p]| + 2 <= q
  {
  }

  lemma SwapStored(d: seq<int>, cls: Cls, locs: seq<int>, p: int, i: int, j: int)
    requires Layout(|d|, cls, locs) && AllStored(d, cls)
    requires p in cls && 0 <= i < |cls[p]| && 0 <= j < |cls[p]|
    ensures p + i < |d| && p + j < |d| && 0 <= p
    ensures var d' := d[p + i := d[p + j]][p + j := d[p + i]]; var cls' := cls[p := Clauses.Swap(cls[p], i, j)];
      Layout(|d|, cls', locs) && AllStored(d', cls')
  {
    assert Stored(d, p, cls[p]);
    var d' := d[p + i := d[p + j]][p + j := d[p + i]];
    var cls' := cls[p := Clauses.Swap(cls[p], i, j)];
    forall q | q in cls' ensures Stored(d', q, cls'[q]) {
      assert Stored(d, q, cls[q]);
      if q < p { Apart(|d|, cls, locs, q, p); }
      if p < q { Apart(|d|, cls, locs, p, q); }
    }
  }

  lemma HeaderPlace(d: seq<int>, cls: Cls, p: int)
    requires AllStored(d, cls) && p in cls
    ensures 1 <= p <= |d|
  {
  }

  /** A header is no part of any clause's literals. */
  lemma HeaderStored(d: seq<int>, cls: Cls, locs: seq<int>, p: int, h: int)
    requires Layout(|d|, cls, locs) && AllStored(d, cls) && p in cls && 1 <= p <= |d| && SizeBits(h) == SizeBits(d[p - 1])
    ensures AllStored(d[p - 1 := h], cls)
  {
  }

  lemma LocsDistinct(n: int, cls: Cls, locs: seq<int>)
    requires Layout(n, cls, locs)
    ensures forall y, z :: 0 <= y < z < |locs| ==> locs[y] < locs[z]
    ensures forall y :: 0 <= y < |locs| ==> locs[y] in cls && 1 <= locs[y]
  {
  }

  /** The place after the x-th clause. */
  ghost function PlaceAt(n: int, locs: seq<int>, x: int): int
    requires 0 <= x
  {
    if x < |locs| then locs[x] else n + 1
  }

  lemma NextPlace(n: int, cls: Cls, locs: seq<int>, x: int)
    requires Layout(n, cls, locs) && 0 <= x < |locs|
    ensures locs[x] in cls && locs[x] + |cls[locs[x]]| + 2 == PlaceAt(n, locs, x + 1) && locs[x] < n
    ensures forall p :: p in cls && p > locs[x] ==> p >= PlaceAt(n, locs, x + 1)
    ensures forall p :: p in cls && p <= locs[x] ==> p < PlaceAt(n, locs, x + 1)
  {
  }

  /** The part of the store before its x-th clause. */
  lemma LayoutPrefix(n: int, cls: Cls, locs: seq<int>, x: int)
    requires Layout(n, cls, locs) && 0 <= x < |locs|
    ensures Layout(locs[x] - 1, Below(cls, locs[x]), locs[..x])
  {
    var cls' := Below(cls, locs[x]);
    LocsDistinct(n, cls, locs);
    PrefixKeys(cls, locs, x);
    if x > 0 { NextPlace(n, cls, locs, x - 1); }
  }

  lemma PrefixKeys(cls: Cls, locs: seq<int>, x: int)
    requires (forall p :: p in cls <==> p in locs) && 0 <= x < |locs|
    requires forall y, z :: 0 <= y < z < |locs| ==> locs[y] < locs[z]
    ensures forall p :: p in Below(cls, locs[x]) <==> p in locs[..x]
  {
  }

  lemma LayoutMax(n: int, cls: Cls, locs: seq<int>)
    requires Layout(n, cls, locs)
    ensures forall p :: p in cls ==> 1 <= p <= n
  {
  }

  lemma PackFirst(n: int, cls: Cls, locs: seq<int>, p: int) returns (y: int)
    requires Layout(n, cls, locs) && p in cls
    ensures 0 <= y < |locs| && p >= 1
    ensures p + |cls[p]| + 2 == PlaceAt(n, locs, y + 1) <= n + 1
    ensures Layout(p - 1, Below(cls, p), locs[..y])
    ensures forall q :: q in cls && q > p ==> q >= PlaceAt(n, locs, y + 1)
    ensures forall q :: q in Below(cls, p) ==> 0 < q < p
  {
    y :| 0 <= y < |locs| && locs[y] == p;
    NextPlace(n, cls, locs, y);
    LayoutPrefix(n, cls, locs, y);
    LayoutMax(n, cls, locs);
    LayoutEnd(n, cls, locs, p);
  }

  lemma PackStart(d0: seq<int>, cls: Cls, locs: seq<int>, rm: seq<int>, gone: set<int>, m0: map<int, int>, cur: int) returns (x: int, out: Out)
    requires Layout(|d0|, cls, locs) && AllStored(d0, cls)
    requires |rm| > 0 && Ascending(rm, cls)
    requires cur == rm[0] + |cls[rm[0]]| + 2 && gone == SetOf(rm) && m0 == map[rm[0] := 0]
    ensures Going(d0, d0, cls, locs, rm, gone, m0, 0, x, cur, rm[0] - 1, out)
  {
    hide Layout, Stored, Packed, Moved, Below, GoneBelow, PlaceAt, HeadersBelow;
    HeadersStart(d0, cls, locs, rm, gone, m0, cur);
    var p := rm[0];
    var y := PackFirst(|d0|, cls, locs, p);
    x, out := y + 1, Out(Below(cls, p), locs[..y]);
    PackedStart(d0, cls, locs, p, cur);
    BelowNext(cls, p, cur);
    assert forall k :: 0 < k < |rm| ==> rm[0] < rm[k];
    RmBelow(rm, gone, cur);
    MovedFirst(out.cls, p, cls[p], GoneBelow(gone, cur), m0);
  }

  lemma RmBelow(rm: seq<int>, gone: set<int>, cur: int)
    requires |rm| > 0 && rm[0] < cur && (forall k :: 0 < k < |rm| ==> rm[k] >= cur) && gone == SetOf(rm)
    ensures GoneBelow(gone, cur) == {rm[0]}
  {
  }

  lemma PackedStart(d0: seq<int>, cls: Cls, locs: seq<int>, p: int, cur: int)
    requires Layout(|d0|, cls, locs) && p in cls && AllStored(d0, cls)
    requires p < cur <= |d0| + 1
    ensures Packed(d0, d0, cur, p - 1, Below(cls, p))
  {
  }

  lemma MovedFirst(cls: Cls, p: int, c: seq<Lit>, rm0: set<int>, m0: map<int, int>)
    requires p > 0 && (forall q :: q in cls ==> 0 < q < p) && rm0 == {p} && m0 == map[p := 0]
    ensures Moved(cls[p := c], cls, rm0, m0)
  {
    var none, m: map<int, int> := {}, map[];
    assert forall q :: q !in none;
    MovedId(cls, none, m);
    MovedSkip(cls, cls, none, m, p, c, rm0);
    assert m[p := 0] == m0;
  }

  lemma MovedId(cls: Cls, none: set<int>, m: map<int, int>)
    requires (forall p :: p in cls ==> p > 0) && none == {} && m == map[]
    ensures Moved(cls, cls, none, m)
  {
  }

  lemma FirstAfter(rm: seq<int>, i: int, k: int, cur: int)
    requires forall j, k :: 0 <= j < k < |rm| ==> rm[j] < rm[k]
    requires forall k :: 0 <= k < |rm| ==> (k <= i <==> rm[k] < cur)
    requires 0 <= i && 0 <= k < |rm| && rm[k] == cur
    ensures k == i + 1
  {
    assert k > i;
    var z := rm[i + 1];
    assert z >= cur;
  }

  /** The next clause is removed if and only if it is next among those to remove. */
  lemma PackNext(d0: seq<int>, cls: Cls, locs: seq<int>, x: int, rm: seq<int>, i: int, cur: int) returns (c: seq<Lit>)
    requires Layout(|d0|, cls, locs) && AllStored(d0, cls)
    requires 0 <= x <= |locs| && cur == PlaceAt(|d0|, locs, x) && cur < |d0| && 0 <= i < |rm|
    requires Ascending(rm, cls) && Upto(rm, i, cur)
    ensures x < |locs| && cur in cls && c == cls[cur] && Stored(d0, cur, c) && cur + |c| + 2 == PlaceAt(|d0|, locs, x + 1) <= |d0| + 1
    ensures cur > 0 && forall p :: p in cls && p > cur ==> p >= PlaceAt(|d0|, locs, x + 1)
    ensures var nrm := if i + 1 < |rm| then rm[i + 1] else 0; (cur == nrm <==> cur in rm)
    ensures (cur in rm <==> cur in SetOf(rm)) && forall p :: p in SetOf(rm) ==> p in cls
    ensures var i' := if cur in rm then i + 1 else i;
      i' < |rm| && Upto(rm, i', PlaceAt(|d0|, locs, x + 1))
  {
    hide Layout, Stored;
    assert forall p :: p in rm ==> p in cls;
    NextPlace(|d0|, cls, locs, x);
    LayoutMax(|d0|, cls, locs);
    LayoutEnd(|d0|, cls, locs, cur);
    c := cls[cur];
    if cur in rm {
      var k :| 0 <= k < |rm| && rm[k] == cur;
      FirstAfter(rm, i, k, cur);
    }
  }

  /** Where the loop stands: before the x-th clause, with i + 1 clauses removed. */
  ghost predicate Going(d0: seq<int>, d: seq<int>, cls: Cls, locs: seq<int>, rm: seq<int>, gone: set<int>, m: map<int, int>, i: int, x: int, cur: int, dst: int, out: Out) {
    && 0 <= i < |rm| && 0 <= x <= |locs| && |d| == |d0| && 0 <= dst < cur && cur == PlaceAt(|d0|, locs, x)
    && Upto(rm, i, cur) && Packing(d0, d, cls, gone, m, cur, dst, out)
  }

  /** One clause further. */
  lemma PackOn(d0: seq<int>, d: seq<int>, cls: Cls, locs: seq<int>, rm: seq<int>, gone: set<int>, m: map<int, int>, i: int, x: int, cur: int, dst: int, out: Out) returns (c: seq<Lit>)
    requires Layout(|d0|, cls, locs) && AllStored(d0, cls) && Ascending(rm, cls) && gone == SetOf(rm)
    requires Going(d0, d, cls, locs, rm, gone, m, i, x, cur, dst, out) && cur < |d0|
    ensures Stored(d, cur, c) && 0 <= i < |rm| && 0 <= dst < cur && cur + |c| + 1 <= |d| && x < |locs|
    ensures var nxt := cur + |c| + 2;
      if cur == (if i + 1 < |rm| then rm[i + 1] else 0) then Going(d0, d, cls, locs, rm, gone, m[cur := 0], i + 1, x + 1, nxt, dst, out)
      else Going(d0, Copied(d, dst, cur - 1, nxt - 1), cls, locs, rm, gone, m[cur := dst + 1], i, x + 1, nxt, dst + (nxt - cur),
        Out(out.cls[dst + 1 := c], out.locs + [dst + 1]))
  {
    hide Layout, Stored, AllStored, Moved, Packing, PlaceAt, HeadersKept, Copied, Upto, SetOf, Ascending;
    c := PackNext(d0, cls, locs, x, rm, i, cur);
    PackAt(d0, d, cls, gone, m, cur, dst, out, c);
    if cur == (if i + 1 < |rm| then rm[i + 1] else 0) {
      PackSkip(d0, d, cls, gone, m, cur, dst, out, c);
    } else {
      PackMove(d0, d, cls, gone, m, cur, dst, out, c);
    }
  }

  lemma PackAt(d0: seq<int>, d: seq<int>, cls: Cls, gone: set<int>, m: map<int, int>, cur: int, dst: int, out: Out, c: seq<Lit>)
    requires Packing(d0, d, cls, gone, m, cur, dst, out) && Stored(d0, cur, c)
    ensures Stored(d, cur, c) && 0 <= dst < cur && |d| == |d0|
  {
  }

  lemma PackSkip(d0: seq<int>, d: seq<int>, cls: Cls, gone: set<int>, m: map<int, int>, cur: int, dst: int, out: Out, c: seq<Lit>)
    requires Packing(d0, d, cls, gone, m, cur, dst, out) && cur in cls && c == cls[cur] && cur in gone && cur > 0
    requires cur + |c| + 2 <= |d0| + 1 && forall p :: p in gone ==> p in cls
    requires forall p :: p in cls && p > cur ==> p >= cur + |c| + 2
    ensures Packing(d0, d, cls, gone, m[cur := 0], cur + |c| + 2, dst, out)
  {
    hide Layout, Moved, Stored, Below, Packed, GoneBelow, HeadersBelow;
    HeadersSkip(d0, d, cls, gone, m, cur, dst, cur + |c| + 2);
    BelowNext(cls, cur, cur + |c| + 2);
    GoneNext(gone, cls, cur, cur + |c| + 2);
    MovedSkip(Below(cls, cur), out.cls, GoneBelow(gone, cur), m, cur, c, GoneBelow(gone, cur + |c| + 2));
    PackedSkip(d0, d, cur, cur + |c| + 2, dst, out.cls);
  }

  lemma PackMove(d0: seq<int>, d: seq<int>, cls: Cls, gone: set<int>, m: map<int, int>, cur: int, dst: int, out: Out, c: seq<Lit>)
    requires Packing(d0, d, cls, gone, m, cur, dst, out) && cur in cls && c == cls[cur] && cur !in gone && cur > 0 && Stored(d, cur, c)
    requires forall p :: p in cls && p > cur ==> p >= cur + |c| + 2
    requires forall p :: p in gone ==> p in cls
    ensures var nxt := cur + |c| + 2; 0 <= dst < cur && nxt <= |d| + 1 && |d| == |d0|
    ensures var nxt := cur + |c| + 2; var n := |c| + 2;
      Packing(d0, Copied(d, dst, cur - 1, nxt - 1), cls, gone, m[cur := dst + 1], nxt, dst + n,
        Out(out.cls[dst + 1 := c], out.locs + [dst + 1]))
  {
    hide Layout, Moved, Stored, Below, Packed, GoneBelow, HeadersBelow;
    PackWords(d0, d, cur, dst, out.cls, c);
    HeadersMove(d0, d, cls, gone, m, cur, dst, cur + |c| + 2);
    PackedSizes(d0, d, cur, dst, out.cls);
    LayoutMax(dst, out.cls, out.locs);
    LayoutAppend(dst, out.cls, out.locs, c);
    CopySegment(d, cur, dst, c);
    PackedMove(d0, d, cur, dst, out.cls, out.locs, c);
    BelowNext(cls, cur, cur + |c| + 2);
    GoneSame(gone, cls, cur, cur + |c| + 2);
    MovedMove(Below(cls, cur), out.cls, GoneBelow(gone, cur), m, cur, c, dst + 1);
  }

  lemma PackedSizes(d0: seq<int>, d: seq<int>, cur: int, dst: int, outCls: Cls)
    requires Packed(d0, d, cur, dst, outCls)
    ensures 0 <= dst < cur <= |d0| + 1 && |d| == |d0|
  {
  }

  lemma GoneSame(gone: set<int>, cls: Cls, cur: int, nxt: int)
    requires cur !in gone && (forall p :: p in gone ==> p in cls) && (forall p :: p in cls && p > cur ==> p >= nxt) && cur <= nxt
    ensures GoneBelow(gone, nxt) == GoneBelow(gone, cur) && cur !in GoneBelow(gone, cur)
  {
  }

  lemma GoneNext(gone: set<int>, cls: Cls, cur: int, nxt: int)
    requires cur in gone && (forall p :: p in gone ==> p in cls) && (forall p :: p in cls && p > cur ==> p >= nxt) && cur < nxt
    ensures forall p :: p in GoneBelow(gone, nxt) <==> p in GoneBelow(gone, cur) || p == cur
  {
  }

  lemma PackEnd(d0: seq<int>, d: seq<int>, cls: Cls, locs: seq<int>, x: int, rm: seq<int>, gone: set<int>, m: map<int, int>, i: int, cur: int, dst: int, out: Out)
    requires Layout(|d0|, cls, locs) && Going(d0, d, cls, locs, rm, gone, m, i, x, cur, dst, out) && cur >= |d0|
    requires gone == SetOf(rm) && Ascending(rm, cls)
    ensures Moved(cls, out.cls, gone, m) && 0 <= dst <= |d| == |d0| && Layout(|d[..dst]|, out.cls, out.locs)
    ensures AllStored(d[..dst], out.cls)
    ensures HeadersKept(d0, d[..dst], cls, gone, m)
  {
    PackedSizes(d0, d, cur, dst, out.cls);
    HeadersEnd(d0, d, cls, locs, x, gone, m, cur, dst);
    PackEndWords(d0, d, cls, locs, x, rm, gone, m, cur, dst, out);
  }

  lemma PackEndWords(d0: seq<int>, d: seq<int>, cls: Cls, locs: seq<int>, x: int, rm: seq<int>, gone: set<int>, m: map<int, int>, cur: int, dst: int, out: Out)
    requires Layout(|d0|, cls, locs) && Packing(d0, d, cls, gone, m, cur, dst, out)
    requires 0 <= x <= |locs| && cur == PlaceAt(|d0|, locs, x) && cur >= |d0|
    requires gone == SetOf(rm) && Ascending(rm, cls)
    ensures Moved(cls, out.cls, gone, m) && 0 <= dst <= |d| && Layout(dst, out.cls, out.locs)
    ensures AllStored(d[..dst], out.cls)
  {
    hide Layout, Stored, Moved, HeadersBelow, Ascending;
    EndBelow(|d0|, cls, locs, x, rm, gone, cur);
  }

  /** At the end of the store everything is below. */
  lemma EndBelow(n: int, cls: Cls, locs: seq<int>, x: int, rm: seq<int>, gone: set<int>, cur: int)
    requires Layout(n, cls, locs) && 0 <= x <= |locs| && cur == PlaceAt(n, locs, x) && cur >= n
    requires gone == SetOf(rm) && Ascending(rm, cls)
    ensures Below(cls, cur) == cls && GoneBelow(gone, cur) == gone
  {
    if x < |locs| { NextPlace(n, cls, locs, x); }
    LayoutMax(n, cls, locs);
    hide Layout;
    forall p | p in gone ensures p < cur {
      var k :| 0 <= k < |rm| && rm[k] == p;
    }
  }

  lemma PackedSkip(d0: seq<int>, d: seq<int>, cur: int, nxt: int, dst: int, outCls: Cls)
    requires Packed(d0, d, cur, dst, outCls) && cur <= nxt <= |d0| + 1
    ensures Packed(d0, d, nxt, dst, outCls)
  {
  }

  lemma PackedMove(d0: seq<int>, d: seq<int>, cur: int, dst: int, outCls: Cls, outLocs: seq<int>, c: seq<Lit>)
    requires Packed(d0, d, cur, dst, outCls) && Stored(d, cur, c) && Layout(dst, outCls, outLocs)
    ensures var nxt := cur + |c| + 2; var n := |c| + 2;
      Packed(d0, Copied(d, dst, cur - 1, nxt - 1), nxt, dst + n, outCls[dst + 1 := c])
  {
    var nxt, n := cur + |c| + 2, |c| + 2;
    CopySegment(d, cur, dst, c);
    AppendStored(d[..dst], outCls, outLocs, d[cur - 1], c);
    PackedSkip(d0, d, cur, nxt, dst, outCls);
    hide Layout, Stored;
  }

  lemma CopySegment(d: seq<int>, cur: int, dst: int, c: seq<Lit>)
    requires Stored(d, cur, c) && 0 <= dst < cur
    ensures var nxt := cur + |c| + 2; var n := |c| + 2; var d' := Copied(d, dst, cur - 1, nxt - 1);
      |d'| == |d| && d'[..dst + n] == d[..dst] + [d[cur - 1]] + c + [NULL] && d'[nxt - 1..] == d[nxt - 1..]
    ensures NULL !in c && cur + |c| + 1 <= |d|
  {
  }
}
