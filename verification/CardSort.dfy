/** Cardinality constraints by Batcher's odd-even merge sort (logic/card.go). */
module Cards {
  import opened Lits
  import opened Counting
  import opened Circuits

  // ---- the network on bits ----

  /** The smaller of two bits goes to place i, the larger to place j. */
  function Exch(x: seq<bool>, i: int, j: int): (y: seq<bool>)
    ensures |y| == |x|
  {
    if 0 <= i < |x| && 0 <= j < |x| then x[i := x[i] && x[j]][j := x[i] || x[j]] else x
  }

  /** The j-th of the places l, l + s, l + 2s, ... */
  function Pos(l: int, s: int, j: int): int {
    l + s * j
  }

  /** Every other of the places is a list of places at twice the distance s2. */
  lemma PosFacts(l: int, s: int, l1: int, s2: int)
    requires s > 0 && l1 == l + s && s2 == 2 * s
    ensures forall j {:trigger Pos(l, s2, j)} :: Pos(l, s2, j) == Pos(l, s, 2 * j)
    ensures forall j {:trigger Pos(l1, s2, j)} :: Pos(l1, s2, j) == Pos(l, s, 2 * j + 1)
  {
    forall j ensures Pos(l, s2, j) == Pos(l, s, 2 * j) && Pos(l1, s2, j) == Pos(l, s, 2 * j + 1) {
      assert (2 * s) * j == s * (2 * j);
      assert s * (2 * j + 1) == s * (2 * j) + s;
    }
  }

  /** The places grow. */
  lemma PosLess(l: int, s: int, i: int, j: int)
    requires s > 0 && i != j
    ensures Pos(l, s, i) != Pos(l, s, j) && (i < j ==> Pos(l, s, i) < Pos(l, s, j))
  {
    if i < j {
      Product(s, j - i);
    } else {
      Product(s, i - j);
    }
    assert s * j == s * i + s * (j - i);
    assert s * i == s * j + s * (i - j);
  }

  lemma Product(s: int, d: int)
    requires s > 0 && d > 0
    ensures s * d > 0
  {
  }

  /** The exchanges of places 1 and 2, 3 and 4, ..., 2k - 1 and 2k. */
  function PairBits(x: seq<bool>, l: int, s: int, k: nat): (y: seq<bool>)
    ensures |y| == |x|
  {
    if k == 0 then x else Exch(PairBits(x, l, s, k - 1), Pos(l, s, 2 * k - 1), Pos(l, s, 2 * k))
  }

  /** The merge of m places at distance s. */
  function MergeBits(x: seq<bool>, l: int, s: int, m: nat): (y: seq<bool>)
    ensures |y| == |x|
    decreases m
  {
    if m <= 1 then x
    else if m == 2 then Exch(x, Pos(l, s, 0), Pos(l, s, 1))
    else PairBits(MergeBits(MergeBits(x, l, 2 * s, (m + 1) / 2), l + s, 2 * s, m / 2), l, s, (m - 1) / 2)
  }

  function SortBits(x: seq<bool>, l: int, n: nat): (y: seq<bool>)
    ensures |y| == |x|
    decreases n
  {
    if n <= 1 then x
    else MergeBits(SortBits(SortBits(x, l, n / 2), l + n / 2, n - n / 2), l, 1, n)
  }

  // ---- why it sorts ----

  /** The m places hold z zeros and then ones. */
  ghost predicate Run(x: seq<bool>, l: int, s: int, m: int, z: int) {
    0 <= z <= m && forall j {:trigger Pos(l, s, j)} :: 0 <= j < m ==> 0 <= Pos(l, s, j) < |x| && x[Pos(l, s, j)] == (j >= z)
  }

  /** Both halves of the 2h places hold zeros and then ones. */
  ghost predicate Halves(x: seq<bool>, l: int, s: int, h: int, z1: int, z2: int) {
    && 0 <= z1 <= h && 0 <= z2 <= h
    && forall j {:trigger Pos(l, s, j)} :: 0 <= j < 2 * h ==>
         0 <= Pos(l, s, j) < |x| && x[Pos(l, s, j)] == if j < h then j >= z1 else j - h >= z2
  }

  /** Only the m places differ. */
  ghost predicate Outside(x: seq<bool>, y: seq<bool>, l: int, s: int, m: int) {
    |x| == |y| && forall p :: 0 <= p < |x| && (forall j {:trigger Pos(l, s, j)} :: 0 <= j < m ==> p != Pos(l, s, j)) ==> y[p] == x[p]
  }

  /** The m places are places of x. */
  ghost predicate Within(x: seq<bool>, l: int, s: int, m: int) {
    forall j {:trigger Pos(l, s, j)} :: 0 <= j < m ==> 0 <= Pos(l, s, j) < |x|
  }

  lemma {:induction false} PairsAt(x: seq<bool>, l: int, s: int, k: nat, m: int, j: int)
    requires s > 0 && 2 * k < m && Within(x, l, s, m) && 0 <= j < m
    ensures 0 <= Pos(l, s, j) < |x|
    ensures j == 0 || j > 2 * k ==> PairBits(x, l, s, k)[Pos(l, s, j)] == x[Pos(l, s, j)]
    ensures 0 < j <= 2 * k && j % 2 == 1 ==>
      0 <= Pos(l, s, j + 1) < |x| && PairBits(x, l, s, k)[Pos(l, s, j)] == (x[Pos(l, s, j)] && x[Pos(l, s, j + 1)])
    ensures 0 < j <= 2 * k && j % 2 == 0 ==>
      0 <= Pos(l, s, j - 1) < |x| && PairBits(x, l, s, k)[Pos(l, s, j)] == (x[Pos(l, s, j - 1)] || x[Pos(l, s, j)])
    decreases k
  {
    hide Pos;
    if k > 0 {
      var p, q := 2 * k - 1, 2 * k;
      var y := PairBits(x, l, s, k - 1);
      PairsAt(x, l, s, k - 1, m, p);
      PairsAt(x, l, s, k - 1, m, q);
      PosLess(l, s, p, q);
      assert PairBits(x, l, s, k) == Exch(y, Pos(l, s, p), Pos(l, s, q));
      if j != p && j != q {
        PairsAt(x, l, s, k - 1, m, j);
        PosLess(l, s, j, p);
        PosLess(l, s, j, q);
      }
    }
  }

  lemma {:induction false} PairsOutside(x: seq<bool>, l: int, s: int, k: nat, m: int)
    requires s > 0 && 2 * k < m && Within(x, l, s, m)
    ensures Outside(x, PairBits(x, l, s, k), l, s, m)
  {
    hide Pos;
    if k > 0 {
      PairsOutside(x, l, s, k - 1, m);
    }
  }

  /** Even places with e zeros and odd places with o zeros, e at most o + 2: the
    exchanges sort them. */
  lemma Interleave(x: seq<bool>, l: int, s: int, l1: int, s2: int, h: int, e: int, o: int)
    requires s > 0 && l1 == l + s && s2 == 2 * s
    requires h >= 2 && Run(x, l, s2, h, e) && Run(x, l1, s2, h, o) && o <= e <= o + 2
    ensures Run(PairBits(x, l, s, h - 1), l, s, 2 * h, e + o)
  {
    hide Pos, PairBits;
    forall j | 0 <= j < 2 * h ensures 0 <= Pos(l, s, j) < |x| {
      EvenOdd(x, l, s, l1, s2, h, e, o, j);
    }
    forall j | 0 <= j < 2 * h ensures PairBits(x, l, s, h - 1)[Pos(l, s, j)] == (j >= e + o) {
      InterleaveAt(x, l, s, l1, s2, h, e, o, j);
    }
  }

  lemma InterleaveAt(x: seq<bool>, l: int, s: int, l1: int, s2: int, h: int, e: int, o: int, j: int)
    requires s > 0 && l1 == l + s && s2 == 2 * s && Within(x, l, s, 2 * h) && 0 <= j < 2 * h
    requires h >= 2 && Run(x, l, s2, h, e) && Run(x, l1, s2, h, o) && o <= e <= o + 2
    ensures PairBits(x, l, s, h - 1)[Pos(l, s, j)] == (j >= e + o)
  {
    hide Pos, PairBits, Run;
    PairsAt(x, l, s, h - 1, 2 * h, j);
    RunSize(x, l, s2, h, e);
    RunSize(x, l1, s2, h, o);
    EvenOdd(x, l, s, l1, s2, h, e, o, j);
    if j + 1 < 2 * h { EvenOdd(x, l, s, l1, s2, h, e, o, j + 1); }
    if j > 0 { EvenOdd(x, l, s, l1, s2, h, e, o, j - 1); }
  }

  lemma RunSize(x: seq<bool>, l: int, s: int, m: int, z: int)
    requires Run(x, l, s, m, z)
    ensures 0 <= z <= m
  {
  }

  lemma EvenOdd(x: seq<bool>, l: int, s: int, l1: int, s2: int, h: int, e: int, o: int, j: int)
    requires s > 0 && l1 == l + s && s2 == 2 * s && Run(x, l, s2, h, e) && Run(x, l1, s2, h, o) && 0 <= j < 2 * h
    ensures 0 <= Pos(l, s, j) < |x| && x[Pos(l, s, j)] == if j % 2 == 0 then j / 2 >= e else j / 2 >= o
  {
    hide Pos;
    var k := j / 2;
    if j % 2 == 0 {
      EvenAt(l, s, l1, s2, k);
      assert j == 2 * k;
      assert x[Pos(l, s2, k)] == (k >= e);
    } else {
      EvenAt(l, s, l1, s2, k);
      assert j == 2 * k + 1;
      assert x[Pos(l1, s2, k)] == (k >= o);
    }
  }

  lemma EvenAt(l: int, s: int, l1: int, s2: int, k: int)
    requires s > 0 && l1 == l + s && s2 == 2 * s
    ensures Pos(l, s2, k) == Pos(l, s, 2 * k) && Pos(l1, s2, k) == Pos(l, s, 2 * k + 1)
  {
    PosFacts(l, s, l1, s2);
  }

  /** The halves of the even places, and of the odd ones. */
  lemma HalvesSplit(x: seq<bool>, l: int, s: int, l1: int, s2: int, h: int, z1: int, z2: int)
    requires s > 0 && l1 == l + s && s2 == 2 * s && h % 2 == 0 && Halves(x, l, s, h, z1, z2)
    ensures Halves(x, l, s2, h / 2, (z1 + 1) / 2, (z2 + 1) / 2)
    ensures Halves(x, l1, s2, h / 2, z1 / 2, z2 / 2)
  {
    hide Pos;
    PosFacts(l, s, l1, s2);
    forall j | 0 <= j < h
      ensures 0 <= Pos(l, s2, j) < |x| && x[Pos(l, s2, j)] == if j < h / 2 then j >= (z1 + 1) / 2 else j - h / 2 >= (z2 + 1) / 2
      ensures 0 <= Pos(l1, s2, j) < |x| && x[Pos(l1, s2, j)] == if j < h / 2 then j >= z1 / 2 else j - h / 2 >= z2 / 2
    {
      assert Pos(l, s2, j) == Pos(l, s, 2 * j) && Pos(l1, s2, j) == Pos(l, s, 2 * j + 1);
    }
  }

  lemma EvenNotOdd(l: int, s: int, l1: int, s2: int, i: int, j: int)
    requires s > 0 && l1 == l + s && s2 == 2 * s
    ensures Pos(l, s2, i) != Pos(l1, s2, j)
  {
    PosFacts(l, s, l1, s2);
    PosLess(l, s, 2 * i, 2 * j + 1);
  }

  /** What happens at the even places does not concern the odd ones, and conversely. */
  lemma OutsideHalves(x: seq<bool>, y: seq<bool>, l: int, s: int, l1: int, s2: int, h: int, z1: int, z2: int)
    requires s > 0 && l1 == l + s && s2 == 2 * s && Halves(x, l1, s2, h, z1, z2) && Outside(x, y, l, s2, 2 * h)
    ensures Halves(y, l1, s2, h, z1, z2)
  {
    hide Pos;
    forall j | 0 <= j < 2 * h ensures 0 <= Pos(l1, s2, j) < |x| && y[Pos(l1, s2, j)] == x[Pos(l1, s2, j)] {
      forall i ensures Pos(l, s2, i) != Pos(l1, s2, j) { EvenNotOdd(l, s, l1, s2, i, j); }
    }
  }

  lemma OutsideRun(x: seq<bool>, y: seq<bool>, l: int, s: int, l1: int, s2: int, h: int, z: int)
    requires s > 0 && l1 == l + s && s2 == 2 * s && Run(x, l, s2, h, z) && Outside(x, y, l1, s2, h)
    ensures Run(y, l, s2, h, z)
  {
    hide Pos;
    forall j | 0 <= j < h ensures 0 <= Pos(l, s2, j) < |x| && y[Pos(l, s2, j)] == x[Pos(l, s2, j)] {
      forall i ensures Pos(l, s2, j) != Pos(l1, s2, i) { EvenNotOdd(l, s, l1, s2, j, i); }
    }
  }

  lemma HalvesWithin(x: seq<bool>, l: int, s: int, h: int, z1: int, z2: int)
    requires Halves(x, l, s, h, z1, z2)
    ensures Within(x, l, s, 2 * h) && 0 <= z1 <= h && 0 <= z2 <= h
  {
  }

  /** Changes at the even or at the odd places are changes at the places. */
  lemma OutsideParts(x: seq<bool>, y: seq<bool>, z: seq<bool>, w: seq<bool>, l: int, s: int, l1: int, s2: int, h: int)
    requires s > 0 && l1 == l + s && s2 == 2 * s
    requires Outside(x, y, l, s2, h) && Outside(y, z, l1, s2, h) && Outside(z, w, l, s, 2 * h)
    ensures Outside(x, w, l, s, 2 * h)
  {
    hide Pos;
    PosFacts(l, s, l1, s2);
    forall p | 0 <= p < |x| && (forall j {:trigger Pos(l, s, j)} :: 0 <= j < 2 * h ==> p != Pos(l, s, j)) ensures w[p] == x[p] {
      forall j | 0 <= j < h ensures p != Pos(l, s2, j) && p != Pos(l1, s2, j) {
        assert Pos(l, s2, j) == Pos(l, s, 2 * j) && Pos(l1, s2, j) == Pos(l, s, 2 * j + 1);
      }
    }
  }

  lemma MergeTwo(x: seq<bool>, l: int, s: int, z1: int, z2: int)
    requires s > 0 && Halves(x, l, s, 1, z1, z2)
    ensures Run(MergeBits(x, l, s, 2), l, s, 2, z1 + z2)
    ensures Outside(x, MergeBits(x, l, s, 2), l, s, 2)
  {
    hide Pos;
    PosLess(l, s, 0, 1);
    assert 0 <= Pos(l, s, 0) < |x| && 0 <= Pos(l, s, 1) < |x|;
  }

  lemma MergeMore(x: seq<bool>, l: int, s: int, l1: int, s2: int, h: nat)
    requires h >= 2 && l1 == l + s && s2 == 2 * s
    ensures MergeBits(x, l, s, 2 * h) == PairBits(MergeBits(MergeBits(x, l, s2, h), l1, s2, h), l, s, h - 1)
  {
    assert (2 * h + 1) / 2 == h == (2 * h) / 2 && (2 * h - 1) / 2 == h - 1;
  }

  lemma PowHalf(k: nat)
    requires k > 0
    ensures Pow2(k) == 2 * Pow2(k - 1) && Pow2(k) % 2 == 0 && Pow2(k) / 2 == Pow2(k - 1) && Pow2(k) >= 2
  {
  }

  /** The merge of two sorted halves, 2^k places each, is sorted. */
  lemma {:induction false} MergeSorts(x: seq<bool>, l: int, s: int, k: nat, z1: int, z2: int)
    requires s > 0 && Halves(x, l, s, Pow2(k), z1, z2)
    ensures Run(MergeBits(x, l, s, 2 * Pow2(k)), l, s, 2 * Pow2(k), z1 + z2)
    ensures Outside(x, MergeBits(x, l, s, 2 * Pow2(k)), l, s, 2 * Pow2(k))
    decreases k
  {
    hide Pos, MergeBits, PairBits, Run, Halves, Outside, Within;
    var h := Pow2(k);
    if k == 0 {
      MergeTwo(x, l, s, z1, z2);
    } else {
      var l1, s2 := l + s, 2 * s;
      PowHalf(k);
      HalvesWithin(x, l, s, h, z1, z2);
      HalvesSplit(x, l, s, l1, s2, h, z1, z2);
      MergeSorts(x, l, s2, k - 1, (z1 + 1) / 2, (z2 + 1) / 2);
      var y := MergeBits(x, l, s2, h);
      OutsideHalves(x, y, l, s, l1, s2, h / 2, z1 / 2, z2 / 2);
      MergeSorts(y, l1, s2, k - 1, z1 / 2, z2 / 2);
      var z := MergeBits(y, l1, s2, h);
      OutsideRun(y, z, l, s, l1, s2, h, (z1 + 1) / 2 + (z2 + 1) / 2);
      Interleave(z, l, s, l1, s2, h, (z1 + 1) / 2 + (z2 + 1) / 2, z1 / 2 + z2 / 2);
      WithinSame(x, z, l, s, 2 * h);
      PairsOutside(z, l, s, h - 1, 2 * h);
      OutsideParts(x, y, z, PairBits(z, l, s, h - 1), l, s, l1, s2, h);
      MergeMore(x, l, s, l1, s2, h);
    }
  }

  lemma WithinSame(x: seq<bool>, z: seq<bool>, l: int, s: int, m: int)
    requires Within(x, l, s, m) && |x| == |z|
    ensures Within(z, l, s, m)
  {
  }

  /** How many of the n bits from place l on are false. */
  ghost function Falses(x: seq<bool>, l: int, n: nat): nat {
    if n == 0 then 0
    else Falses(x, l, n - 1) + if 0 <= l + n - 1 < |x| && !x[l + n - 1] then 1 else 0
  }

  lemma {:induction false} FalsesAdd(x: seq<bool>, l: int, m: nat, n: nat)
    ensures Falses(x, l, m + n) == Falses(x, l, m) + Falses(x, l + m, n)
  {
    if n > 0 {
      FalsesAdd(x, l, m, n - 1);
    }
  }

  lemma {:induction false} FalsesSame(x: seq<bool>, y: seq<bool>, l: int, n: nat)
    requires |x| == |y| && forall p :: 0 <= p < |x| && l <= p < l + n ==> x[p] == y[p]
    ensures Falses(x, l, n) == Falses(y, l, n)
  {
    if n > 0 {
      FalsesSame(x, y, l, n - 1);
    }
  }

  /** The n bits from place l on are z zeros and then ones. */
  ghost predicate Sorted(x: seq<bool>, l: int, n: int, z: int) {
    0 <= l && l + n <= |x| && 0 <= z <= n && forall p :: l <= p < l + n ==> x[p] == (p >= l + z)
  }

  ghost predicate SameElse(x: seq<bool>, y: seq<bool>, l: int, n: int) {
    |x| == |y| && forall p :: 0 <= p < |x| && !(l <= p < l + n) ==> y[p] == x[p]
  }

  lemma HalvesOf(x: seq<bool>, l: int, h: int, z1: int, z2: int)
    requires h > 0 && Sorted(x, l, h, z1) && Sorted(x, l + h, h, z2)
    ensures Halves(x, l, 1, h, z1, z2)
  {
  }

  lemma RunSorted(x: seq<bool>, y: seq<bool>, l: int, n: int, z: int)
    requires Run(y, l, 1, n, z) && Outside(x, y, l, 1, n) && 0 <= l && l + n <= |x|
    ensures Sorted(y, l, n, z) && SameElse(x, y, l, n)
  {
    forall p | l <= p < l + n ensures y[p] == (p >= l + z) {
      assert Pos(l, 1, p - l) == p;
    }
  }

  lemma SortOne(x: seq<bool>, l: int)
    requires 0 <= l && l + 1 <= |x|
    ensures Sorted(SortBits(x, l, 1), l, 1, Falses(x, l, 1)) && SameElse(x, SortBits(x, l, 1), l, 1)
  {
    assert Falses(x, l, 1) == Falses(x, l, 0) + if !x[l] then 1 else 0;
  }

  lemma SortHalf(x: seq<bool>, l: int, h: nat)
    requires h > 0
    ensures SortBits(x, l, 2 * h) == MergeBits(SortBits(SortBits(x, l, h), l + h, h), l, 1, 2 * h)
  {
    hide MergeBits;
  }

  lemma SortParts(x: seq<bool>, l: int, n: nat)
    ensures n <= 1 ==> SortBits(x, l, n) == x
    ensures n >= 2 ==> SortBits(x, l, n) == MergeBits(SortBits(SortBits(x, l, n / 2), l + n / 2, n - n / 2), l, 1, n)
  {
    hide MergeBits;
  }

  /** The network sorts: as many zeros come first as there were. */
  lemma {:induction false} SortSorts(x: seq<bool>, l: int, k: nat)
    requires 0 <= l && l + Pow2(k) <= |x|
    ensures Sorted(SortBits(x, l, Pow2(k)), l, Pow2(k), Falses(x, l, Pow2(k)))
    ensures SameElse(x, SortBits(x, l, Pow2(k)), l, Pow2(k))
    decreases k
  {
    hide MergeBits, SortBits, Sorted, SameElse, Falses, Halves, Run, Outside;
    if k == 0 {
      SortOne(x, l);
    } else {
      PowHalf(k);
      var h := Pow2(k - 1);
      SortHalf(x, l, h);
      SortSorts(x, l, k - 1);
      var y := SortBits(x, l, h);
      ElseSame(x, y, l, h);
      SortSorts(y, l + h, k - 1);
      var z := SortBits(y, l + h, h);
      FirstKept(y, z, l, h, Falses(x, l, h));
      FalsesAdd(x, l, h, h);
      HalvesOf(z, l, h, Falses(x, l, h), Falses(x, l + h, h));
      MergeSorts(z, l, 1, k - 1, Falses(x, l, h), Falses(x, l + h, h));
      var w := MergeBits(z, l, 1, 2 * h);
      RunSorted(z, w, l, 2 * h, Falses(x, l, 2 * h));
      ElseTrans(x, y, z, w, l, h);
    }
  }

  lemma ElseSame(x: seq<bool>, y: seq<bool>, l: int, h: nat)
    requires SameElse(x, y, l, h)
    ensures Falses(y, l + h, h) == Falses(x, l + h, h)
  {
    FalsesSame(y, x, l + h, h);
  }

  lemma FirstKept(y: seq<bool>, z: seq<bool>, l: int, h: int, n: int)
    requires Sorted(y, l, h, n) && SameElse(y, z, l + h, h)
    ensures Sorted(z, l, h, n)
  {
  }

  lemma ElseTrans(x: seq<bool>, y: seq<bool>, z: seq<bool>, w: seq<bool>, l: int, h: int)
    requires h >= 0 && SameElse(x, y, l, h) && SameElse(y, z, l + h, h) && SameElse(z, w, l, 2 * h)
    ensures SameElse(x, w, l, 2 * h)
  {
  }

  // ---- the network on literals ----

  /** The values of the literals. */
  ghost function Bits(g: seq<Gate>, v: Valuation, ms: seq<Lit>): (x: seq<bool>)
    ensures |x| == |ms| && forall i :: 0 <= i < |ms| ==> x[i] == Val(g, v, ms[i])
  {
    seq(|ms|, i requires 0 <= i < |ms| => Val(g, v, ms[i]))
  }

  ghost predicate Wired(g: seq<Gate>, ms: seq<Lit>) {
    forall i :: 0 <= i < |ms| ==> InCircuit(g, ms[i])
  }

  /** The number of literals that are true. */
  ghost function Count(g: seq<Gate>, v: Valuation, ms: seq<Lit>): nat {
    if |ms| == 0 then 0 else Count(g, v, ms[..|ms| - 1]) + if Val(g, v, ms[|ms| - 1]) then 1 else 0
  }

  /** In a larger circuit the literals have the same values. */
  lemma BitsLater(g: seq<Gate>, g': seq<Gate>, ms: seq<Lit>)
    requires g <= g' && Wired(g, ms)
    ensures Wired(g', ms) && forall v {:trigger Bits(g', v, ms)} :: Bits(g', v, ms) == Bits(g, v, ms)
  {
    hide Val;
    Later(g, g');
    forall v ensures Bits(g', v, ms) == Bits(g, v, ms) {
      assert forall i :: 0 <= i < |ms| ==> Bits(g', v, ms)[i] == Bits(g, v, ms)[i];
    }
  }

  /** A compare-and-swap of literals exchanges their values. */
  lemma ExchLits(g: seq<Gate>, g': seq<Gate>, ms: seq<Lit>, i: int, j: int, lo: Lit, hi: Lit)
    requires g <= g' && Wired(g, ms) && 0 <= i < |ms| && 0 <= j < |ms| && i != j && InCircuit(g', lo) && InCircuit(g', hi)
    requires forall v :: Val(g', v, lo) == (Val(g, v, ms[i]) && Val(g, v, ms[j]))
    requires forall v :: Val(g', v, hi) == (Val(g, v, ms[i]) || Val(g, v, ms[j]))
    ensures var ms' := ms[i := lo][j := hi];
      Wired(g', ms') && forall v {:trigger Bits(g', v, ms')} :: Bits(g', v, ms') == Exch(Bits(g, v, ms), i, j)
  {
    hide Val;
    Later(g, g');
    var ms' := ms[i := lo][j := hi];
    forall v ensures Bits(g', v, ms') == Exch(Bits(g, v, ms), i, j) {
      assert forall k :: 0 <= k < |ms| ==> Bits(g', v, ms')[k] == Exch(Bits(g, v, ms), i, j)[k];
    }
  }

  class CardSort {
    const n: int
    const c: C
    const ms: array<Lit>
    ghost const Inputs: seq<Lit>

    /** Builds the network for the literals ms0, made up to a power of two with true ones. */
    constructor (ms0: seq<Lit>, c0: C)
      requires c0.Valid() && Wired(c0.G(), ms0)
      modifies c0
      ensures Counts() && c == c0 && Inputs == ms0 && n == |ms0| && fresh(ms) && old(c0.G()) <= c0.G()
    {
      var p := 0;
      while Pow2(p) < |ms0|
        modifies {}
        decreases |ms0| - p
      {
        PowGrows(p);
        p := p + 1;
      }
      var ns := new Lit[Pow2(p)](i requires 0 <= i => if i < |ms0| then ms0[i] else T);
      c, ms, n, Inputs := c0, ns, |ms0|, ms0;
      new;
      hide Val, Pow2, InCircuit, NoTwins, Linked, Hashed, Ranked;
      ConstAll(c.G());
      hide WellFormed;
      sortAll(p);
    }

    /** Sorts the literals, of which those beyond the inputs are true. */
    method sortAll(ghost p: nat)
      requires Valid() && Wired(c.G(), Inputs) && n == |Inputs| <= ms.Length == Pow2(p)
      requires forall i :: 0 <= i < ms.Length ==> ms[i] == if i < n then Inputs[i] else T
      modifies c, ms
      ensures Counts() && old(c.G()) <= c.G()
    {
      hide Val, SortBits, Bits, Pow2, Ranked, InCircuit, WellFormed, NoTwins, Linked, Hashed;
      ghost var g, pad := c.G(), ms[..];
      sort(0, ms.Length);
      AllRanked(g, c.G(), pad, ms[..], Inputs, p);
    }

    /** In every valuation the literals in ms are in ascending order, and the number of
      those that are true among the first n is that of the inputs. */
    ghost predicate Counts()
      reads c, ms
    {
      && Valid() && Wired(c.G(), Inputs) && n == |Inputs| <= ms.Length
      && forall v {:trigger Ranked(c.G(), v, ms[..], Inputs)} :: Ranked(c.G(), v, ms[..], Inputs)
    }

    // at most b are true
    function Leq(b: int): (r: Lit)
      reads c, ms
      requires Counts()
      ensures InCircuit(c.G(), r) && forall v :: Val(c.G(), v, r) == (Count(c.G(), v, Inputs) <= b)
    {
      ConstAll(c.G());
      CountMax(c.G(), Inputs);
      if b >= n then T
      else if b < 0 then F
      else
        var m := ms[n - 1 - b];
        RankedAt(c.G(), ms[..], Inputs, n - 1 - b);
        NotIn(c.G(), m);
        Not(m)
    }

    // fewer than b are true
    function Less(b: int): (r: Lit)
      reads c, ms
      requires Counts()
      ensures InCircuit(c.G(), r) && forall v :: Val(c.G(), v, r) == (Count(c.G(), v, Inputs) < b)
    {
      Leq(b - 1)
    }

    // at least b are true
    function Geq(b: int): (r: Lit)
      reads c, ms
      requires Counts()
      ensures InCircuit(c.G(), r) && forall v :: Val(c.G(), v, r) == (Count(c.G(), v, Inputs) >= b)
    {
      ConstAll(c.G());
      CountMax(c.G(), Inputs);
      if b <= 0 then T
      else if b >= n + 1 then F
      else
        NotIn(c.G(), Leq(b - 1));
        Not(Leq(b - 1))
    }

    // more than b are true
    function Gr(b: int): (r: Lit)
      reads c, ms
      requires Counts()
      ensures InCircuit(c.G(), r) && forall v :: Val(c.G(), v, r) == (Count(c.G(), v, Inputs) > b)
    {
      Geq(b + 1)
    }

    method sort(l: int, h: int)
      requires Valid() && 0 <= l <= h <= ms.Length
      modifies c, ms
      ensures Valid() && old(c.G()) <= c.G()
      ensures forall v {:trigger Bits(c.G(), v, ms[..])} :: Bits(c.G(), v, ms[..]) == SortBits(Bits(old(c.G()), v, old(ms[..])), l, h - l)
      decreases h - l
    {
      hide MergeBits, SortBits, Bits, Wired, WellFormed, NoTwins, Linked, Hashed;
      ghost var g, ms0 := c.G(), ms[..];
      if h - l <= 1 {
        forall v ensures Bits(g, v, ms0) == SortBits(Bits(g, v, ms0), l, h - l) { SortParts(Bits(g, v, ms0), l, h - l); }
        return;
      }
      var m := l + (h - l) / 2;
      sort(l, m);
      ghost var g1, ms1 := c.G(), ms[..];
      sort(m, h);
      ghost var g2, ms2 := c.G(), ms[..];
      OnePlaces(l, h);
      merge(l, h, 1, h - l);
      forall v ensures Bits(c.G(), v, ms[..]) == SortBits(Bits(g, v, ms0), l, h - l) {
        assert Bits(g1, v, ms1) == SortBits(Bits(g, v, ms0), l, m - l);
        assert Bits(g2, v, ms2) == SortBits(Bits(g1, v, ms1), m, h - m);
        SortParts(Bits(g, v, ms0), l, h - l);
      }
    }

    /** The circuit has all the literals. */
    ghost predicate Valid()
      reads c, ms
    {
      c.Valid() && Wired(c.G(), ms[..])
    }

    // compare-and-swap (low-high)
    method cas(i: int, j: int) returns (l: Lit, h: Lit)
      requires Valid() && 0 <= i < ms.Length && 0 <= j < ms.Length
      modifies c
      ensures c.Valid() && old(c.G()) <= c.G() && InCircuit(c.G(), l) && InCircuit(c.G(), h)
      ensures forall v :: Val(c.G(), v, l) == (Val(old(c.G()), v, ms[i]) && Val(old(c.G()), v, ms[j]))
      ensures forall v :: Val(c.G(), v, h) == (Val(old(c.G()), v, ms[i]) || Val(old(c.G()), v, ms[j]))
    {
      hide WellFormed, NoTwins, Linked, Hashed, AndNodes, AndLit, Val;
      ghost var g := c.G();
      assert ms[..][i] == ms[i] && ms[..][j] == ms[j];
      var mi, mj := ms[i], ms[j];
      AndAll(g, mi, mj);
      l := c.And(mi, mj);
      ghost var g1 := c.G();
      Later(g, g1);
      h := c.Or(mi, mj);
      Later(g1, c.G());
    }

    /** cas, with the result put in place. */
    method exchange(i: int, j: int)
      requires Valid() && 0 <= i < ms.Length && 0 <= j < ms.Length && i != j
      modifies c, ms
      ensures Valid() && old(c.G()) <= c.G()
      ensures forall v {:trigger Bits(c.G(), v, ms[..])} :: Bits(c.G(), v, ms[..]) == Exch(Bits(old(c.G()), v, old(ms[..])), i, j)
    {
      hide Val, Exch;
      ghost var g, ms0 := c.G(), ms[..];
      var ml, mh := cas(i, j);
      ms[i], ms[j] := ml, mh;
      assert ms[..] == ms0[i := ml][j := mh];
      ExchLits(g, c.G(), ms0, i, j, ml, mh);
    }

    /** Odd-even merge of the m places l, l + s, ... below h. */
    method merge(l: int, h: int, s: int, ghost m: nat)
      requires Valid() && s > 0 && 0 <= l && h <= ms.Length && m >= 1 && Pos(l, s, m - 1) < h <= Pos(l, s, m)
      modifies c, ms
      ensures Valid() && old(c.G()) <= c.G()
      ensures forall v {:trigger Bits(c.G(), v, ms[..])} :: Bits(c.G(), v, ms[..]) == MergeBits(Bits(old(c.G()), v, old(ms[..])), l, s, m)
      decreases m
    {
      hide Pos, PairBits, Exch, Bits, Wired;
      FewPlaces(l, h, s, m);
      if h <= l + s {
        return;
      }
      var ss := 2 * s;
      if ss >= h - l {
        TwoPlaces(l, s);
        exchange(l, l + s);
        return;
      }
      ghost var g, ms0 := c.G(), ms[..];
      HalfPlaces(l, h, s, l + s, ss, m);
      merge(l, h, ss, (m + 1) / 2);
      ghost var g1, ms1 := c.G(), ms[..];
      merge(l + s, h, ss, m / 2);
      ghost var g2, ms2 := c.G(), ms[..];
      pairs(l, h, s, m);
      forall v ensures Bits(c.G(), v, ms[..]) == MergeBits(Bits(g, v, ms0), l, s, m) {
        assert Bits(g1, v, ms1) == MergeBits(Bits(g, v, ms0), l, ss, (m + 1) / 2);
        assert Bits(g2, v, ms2) == MergeBits(Bits(g1, v, ms1), l + s, ss, m / 2);
      }
    }

    /** The exchanges after the merges of even and odd places. */
    method pairs(l: int, h: int, s: int, ghost m: nat)
      requires Valid() && s > 0 && 0 <= l && h <= ms.Length && m >= 1 && Pos(l, s, m - 1) < h <= Pos(l, s, m)
      modifies c, ms
      ensures Valid() && old(c.G()) <= c.G()
      ensures forall v {:trigger Bits(c.G(), v, ms[..])} :: Bits(c.G(), v, ms[..]) == PairBits(Bits(old(c.G()), v, old(ms[..])), l, s, (m - 1) / 2)
    {
      hide Pos, Exch, Bits, Wired;
      var ss, lim := 2 * s, h - s;
      ghost var g, ms0 := c.G(), ms[..];
      ghost var k: nat := 0;
      var i := l + s;
      TwoPlaces(l, s);
      while i < lim
        invariant 0 <= i && i == Pos(l, s, 2 * k + 1) && 2 * k <= m - 1
        invariant Valid() && g <= c.G()
        invariant forall v {:trigger Bits(c.G(), v, ms[..])} :: Bits(c.G(), v, ms[..]) == PairBits(Bits(g, v, ms0), l, s, k)
        decreases lim - i
      {
        PairPlaces(l, h, s, m, k);
        exchange(i, i + s);
        i := i + ss;
        k := k + 1;
      }
      PairsDone(l, h, s, m, k);
    }
  }

  /** The comment on Less speaks of at most b true literals: that is what it means for
    every number of true literals but b itself. */
  lemma LessIsNotLeq(cs: CardSort, b: int, v: Valuation)
    requires cs.Counts()
    ensures var k := Count(cs.c.G(), v, cs.Inputs);
      (Val(cs.c.G(), v, cs.Less(b)) == (k <= b)) <==> k != b
  {
  }

  /** One true literal and the bound 1 are such a case. */
  lemma CountOne()
    ensures Count([Gate(NULL, NULL), Gate(NULL, NULL)], iset{}, [T]) == 1
  {
    var g := [Gate(NULL, NULL), Gate(NULL, NULL)];
    ValConst(g, iset{});
    assert [T][..0] == [];
    assert Count(g, iset{}, []) == 0;
  }

  lemma OnePlaces(l: int, h: int)
    requires l < h
    ensures Pos(l, 1, h - l - 1) < h <= Pos(l, 1, h - l)
  {
  }

  /** The literals with the numbers from n - count on are true. */
  ghost predicate Ranked(g: seq<Gate>, v: Valuation, ms: seq<Lit>, inputs: seq<Lit>) {
    |inputs| <= |ms| && forall k :: 0 <= k < |inputs| ==> Val(g, v, ms[k]) == (k >= |inputs| - Count(g, v, inputs))
  }

  lemma RankedAt(g: seq<Gate>, ms: seq<Lit>, inputs: seq<Lit>, k: int)
    requires 0 <= k < |inputs| <= |ms| && forall v {:trigger Ranked(g, v, ms, inputs)} :: Ranked(g, v, ms, inputs)
    ensures forall v :: Val(g, v, ms[k]) == (k >= |inputs| - Count(g, v, inputs))
  {
    forall v ensures Val(g, v, ms[k]) == (k >= |inputs| - Count(g, v, inputs)) {
      assert Ranked(g, v, ms, inputs);
    }
  }

  lemma CountMax(g: seq<Gate>, ms: seq<Lit>)
    ensures forall v :: Count(g, v, ms) <= |ms|
  {
    forall v ensures Count(g, v, ms) <= |ms| { CountLe(g, v, ms); }
  }

  lemma {:induction false} CountLe(g: seq<Gate>, v: Valuation, ms: seq<Lit>)
    ensures Count(g, v, ms) <= |ms|
  {
    if |ms| > 0 { CountLe(g, v, ms[..|ms| - 1]); }
  }

  lemma {:induction false} CountLater(g: seq<Gate>, g': seq<Gate>, v: Valuation, ms: seq<Lit>)
    requires g <= g' && Wired(g, ms)
    ensures Count(g', v, ms) == Count(g, v, ms)
  {
    if |ms| > 0 {
      CountLater(g, g', v, ms[..|ms| - 1]);
      Later(g, g');
    }
  }

  /** The false bits among the padded inputs are those of the inputs. */
  lemma {:induction false} PadFalses(g: seq<Gate>, v: Valuation, pad: seq<Lit>, ms: seq<Lit>, k: nat)
    requires k <= |pad| && forall i :: 0 <= i < |pad| ==> pad[i] == if i < |ms| then ms[i] else T
    ensures Falses(Bits(g, v, pad), 0, k) == if k <= |ms| then k - Count(g, v, ms[..k]) else |ms| - Count(g, v, ms)
  {
    if k > 0 {
      PadFalses(g, v, pad, ms, k - 1);
      ValConst(g, v);
      hide Val;
      if k <= |ms| {
        assert ms[..k][..k - 1] == ms[..k - 1];
      } else if k == |ms| + 1 {
        assert ms[..|ms|] == ms;
      }
    }
  }

  lemma PadRanked(g: seq<Gate>, g': seq<Gate>, v: Valuation, pad: seq<Lit>, ms: seq<Lit>, inputs: seq<Lit>, p: nat)
    requires g <= g' && Wired(g, inputs) && |inputs| <= |pad| == |ms| == Pow2(p)
    requires forall i :: 0 <= i < |pad| ==> pad[i] == if i < |inputs| then inputs[i] else T
    requires Bits(g', v, ms) == SortBits(Bits(g, v, pad), 0, Pow2(p))
    requires Sorted(SortBits(Bits(g, v, pad), 0, Pow2(p)), 0, Pow2(p), Falses(Bits(g, v, pad), 0, Pow2(p)))
    ensures Ranked(g', v, ms, inputs)
  {
    hide Val, SortBits, Falses, Count;
    PadFalses(g, v, pad, inputs, Pow2(p));
    assert inputs[..|inputs|] == inputs;
    CountLater(g, g', v, inputs);
    forall k | 0 <= k < |inputs| ensures Val(g', v, ms[k]) == (k >= |inputs| - Count(g', v, inputs)) {
      assert Bits(g', v, ms)[k] == Val(g', v, ms[k]);
    }
  }

  lemma AllRanked(g: seq<Gate>, g': seq<Gate>, pad: seq<Lit>, ms: seq<Lit>, inputs: seq<Lit>, p: nat)
    requires g <= g' && Wired(g, inputs) && |inputs| <= |pad| == |ms| == Pow2(p)
    requires forall i :: 0 <= i < |pad| ==> pad[i] == if i < |inputs| then inputs[i] else T
    requires forall v {:trigger Bits(g', v, ms)} :: Bits(g', v, ms) == SortBits(Bits(g, v, pad), 0, Pow2(p))
    ensures Wired(g', inputs) && forall v {:trigger Ranked(g', v, ms, inputs)} :: Ranked(g', v, ms, inputs)
  {
    hide SortBits, Sorted, Ranked, Val, Bits;
    BitsLater(g, g', inputs);
    forall v ensures Ranked(g', v, ms, inputs) {
      SortSorts(Bits(g, v, pad), 0, p);
      PadRanked(g, g', v, pad, ms, inputs, p);
    }
  }

  /** Adding to the circuit changes no count. */
  lemma RankedLater(g: seq<Gate>, g': seq<Gate>, v: Valuation, ms: seq<Lit>, inputs: seq<Lit>)
    requires g <= g' && Wired(g, inputs) && Wired(g, ms) && Ranked(g, v, ms, inputs)
    ensures Ranked(g', v, ms, inputs)
  {
    hide Val;
    CountLater(g, g', v, inputs);
    Later(g, g');
  }

  lemma PosMono(l: int, s: int, i: int, j: int)
    requires s > 0 && i <= j
    ensures Pos(l, s, i) <= Pos(l, s, j)
  {
    if i < j { PosLess(l, s, i, j); }
  }

  lemma PosNext(l: int, s: int, j: int)
    ensures Pos(l, s, j + 1) == Pos(l, s, j) + s && Pos(l, s, 0) == l
  {
    assert s * (j + 1) == s * j + s;
  }

  lemma FewPlaces(l: int, h: int, s: int, m: nat)
    requires s > 0 && m >= 1 && Pos(l, s, m - 1) < h <= Pos(l, s, m)
    ensures h <= l + s <==> m == 1
    ensures m >= 2 ==> (2 * s >= h - l <==> m == 2)
    ensures l < h
  {
    hide Pos;
    PosNext(l, s, 0);
    PosNext(l, s, 1);
    PosMono(l, s, 0, m - 1);
    if m >= 2 { PosMono(l, s, 1, m - 1); }
    if m >= 3 { PosMono(l, s, 2, m - 1); }
  }

  lemma TwoPlaces(l: int, s: int)
    ensures Pos(l, s, 0) == l && Pos(l, s, 1) == l + s
  {
  }

  /** The even and the odd places below h. */
  lemma HalfPlaces(l: int, h: int, s: int, l1: int, s2: int, m: nat)
    requires s > 0 && l1 == l + s && s2 == 2 * s && m >= 2 && Pos(l, s, m - 1) < h <= Pos(l, s, m)
    ensures Pos(l, s2, (m + 1) / 2 - 1) < h <= Pos(l, s2, (m + 1) / 2)
    ensures Pos(l1, s2, m / 2 - 1) < h <= Pos(l1, s2, m / 2)
  {
    hide Pos;
    var e, o := (m + 1) / 2, m / 2;
    EvenAt(l, s, l1, s2, e - 1);
    EvenAt(l, s, l1, s2, e);
    EvenAt(l, s, l1, s2, o - 1);
    EvenAt(l, s, l1, s2, o);
    PosMono(l, s, 2 * (e - 1), m - 1);
    PosMono(l, s, m, 2 * e);
    PosMono(l, s, 2 * (o - 1) + 1, m - 1);
    PosMono(l, s, m, 2 * o + 1);
  }

  lemma PairPlaces(l: int, h: int, s: int, m: nat, k: nat)
    requires s > 0 && m >= 1 && Pos(l, s, m - 1) < h <= Pos(l, s, m) && Pos(l, s, 2 * k + 1) < h - s
    ensures var i := Pos(l, s, 2 * k + 1);
      Pos(l, s, 2 * (k + 1)) == i + s && Pos(l, s, 2 * (k + 1) - 1) == i && Pos(l, s, 2 * (k + 1) + 1) == i + 2 * s
    ensures 2 * (k + 1) <= m - 1
  {
    hide Pos;
    PosNext(l, s, 2 * k + 1);
    PosNext(l, s, 2 * k + 2);
    if m <= 2 * k + 2 { PosMono(l, s, m, 2 * k + 2); }
  }

  lemma PairsDone(l: int, h: int, s: int, m: nat, k: nat)
    requires s > 0 && m >= 1 && Pos(l, s, m - 1) < h <= Pos(l, s, m) && Pos(l, s, 2 * k + 1) >= h - s && 2 * k <= m - 1
    ensures k == (m - 1) / 2
  {
    hide Pos;
    PosNext(l, s, 2 * k + 1);
    if 2 * k + 2 <= m - 1 { PosMono(l, s, 2 * k + 2, m - 1); }
  }
}
