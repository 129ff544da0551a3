/** The variable order: an indexed binary max-heap (internal/xo/guess.go). */
module Guesses {
  import opened Lits
  import opened Counting

  // gBumpLim
  const BUMP_LIM: real := 1e100

  /** pos and vhp are inverse to each other; pos is -1 off the heap. */
  ghost predicate Indexed(pos: seq<int>, vhp: seq<int>) {
    && (forall i {:trigger vhp[i]} :: 0 <= i < |vhp| ==> 0 <= vhp[i] < |pos| && pos[vhp[i]] == i)
    && (forall v {:trigger pos[v]} :: 0 <= v < |pos| ==> pos[v] == -1 || (0 <= pos[v] < |vhp| && vhp[pos[v]] == v))
  }

  /** The same variables are on the heap. */
  ghost predicate SameVars(p0: seq<int>, p1: seq<int>) {
    |p0| == |p1| && forall v {:trigger p0[v]} {:trigger p1[v]} :: 0 <= v < |p0| ==> (p0[v] == -1 <==> p1[v] == -1)
  }

  predicate IsChild(i: int, c: int) {
    c == 2 * i + 1 || c == 2 * i + 2
  }

  ghost predicate InRange(vhp: seq<int>, heat: seq<real>) {
    forall i {:trigger vhp[i]} :: 0 <= i < |vhp| ==> 0 <= vhp[i] < |heat|
  }

  /** Among the first n places, no child is hotter than its parent; excepted are
    the parents below lo, the parent p and the child q. */
  ghost predicate Ordered(vhp: seq<int>, heat: seq<real>, n: int, lo: int, p: int, q: int)
    requires InRange(vhp, heat) && n <= |vhp|
  {
    forall i, c {:trigger vhp[i], vhp[c]} ::
      lo <= i && 0 <= i < c < n && IsChild(i, c) && i != p && c != q ==> heat[vhp[c]] <= heat[vhp[i]]
  }

  ghost predicate MaxHeap(vhp: seq<int>, heat: seq<real>)
    requires InRange(vhp, heat)
  {
    Ordered(vhp, heat, |vhp|, 0, -1, -1)
  }

  /** The parent of p is at least as hot as the children of p. */
  ghost predicate Grand(vhp: seq<int>, heat: seq<real>, n: int, lo: int, p: int)
    requires InRange(vhp, heat) && n <= |vhp|
  {
    forall i, c {:trigger vhp[i], vhp[c]} ::
      lo <= i && 0 <= i < p < c < n && IsChild(i, p) && IsChild(p, c) ==> heat[vhp[c]] <= heat[vhp[i]]
  }

  /** The signs noted once the literals of d from place i on are unassigned, the last first. */
  ghost function Saved(cache: seq<int>, d: seq<Lit>, i: int): seq<int>
    requires 0 <= i <= |d|
    decreases |d| - i
  {
    if i == |d| then cache else
    var c := Saved(cache, d, i + 1);
    if 0 <= Var(d[i]) < |c| then c[Var(d[i]) := Sign(d[i])] else c
  }

  /** Each variable unassigned keeps the sign it had, and no other changes. */
  lemma {:induction false} SavedSigns(cache: seq<int>, d: seq<Lit>, i: int)
    requires 0 <= i <= |d| && forall k :: i <= k < |d| ==> 0 <= Var(d[k]) < |cache|
    requires forall j, k :: i <= j < k < |d| ==> Var(d[j]) != Var(d[k])
    ensures |Saved(cache, d, i)| == |cache|
    ensures forall k :: i <= k < |d| ==> Saved(cache, d, i)[Var(d[k])] == Sign(d[k])
    ensures forall u :: 0 <= u < |cache| && (forall k :: i <= k < |d| ==> Var(d[k]) != u) ==> Saved(cache, d, i)[u] == cache[u]
    decreases |d| - i
  {
    hide Var, Sign;
    if i < |d| {
      SavedSigns(cache, d, i + 1);
    }
  }

  class Guess {
    var pos: seq<int>      // per variable: its place in the heap, or -1
    var vhp: seq<int>      // the heap
    var heat: seq<real>    // per variable
    var cache: seq<int>    // per variable: the sign it had last
    var bumpInc: real

    ghost predicate Shape()
      reads this
    {
      Indexed(pos, vhp) && |heat| == |pos| == |cache| && InRange(vhp, heat) && |pos| > 0 && pos[0] == -1
    }

    ghost predicate Valid()
      reads this
    {
      Shape() && MaxHeap(vhp, heat) && bumpInc > 0.0
    }

    /** Is v on the heap? */
    ghost predicate Has(v: int)
      reads this
    {
      0 <= v < |pos| && pos[v] != -1
    }

    constructor (top: int)
      requires top >= 1
      ensures Valid() && |pos| == top && forall v :: 0 <= v < top ==> pos[v] == -1
    {
      pos := seq(top, _ => -1);
      vhp := [];
      heat := seq(top, _ => 0.0);
      cache := seq(top, _ => 0);
      bumpInc := 1.0;
    }

    method swap(i: int, j: int)
      requires Shape() && 0 <= i < |vhp| && 0 <= j < |vhp|
      modifies this`pos, this`vhp
      ensures Shape() && SameVars(old(pos), pos)
      ensures vhp == old(vhp[i := vhp[j]][j := vhp[i]])
    {
      var u, v := vhp[i], vhp[j];
      vhp := vhp[i := v][j := u];
      pos := pos[u := j][v := i];
    }

    method up(j0: int)
      requires Shape() && 0 <= j0 < |vhp|
      requires Ordered(vhp, heat, |vhp|, 0, -1, j0) && Grand(vhp, heat, |vhp|, 0, j0)
      modifies this`pos, this`vhp
      ensures Shape() && MaxHeap(vhp, heat) && |vhp| == |old(vhp)| && SameVars(old(pos), pos)
    {
      var j := j0;
      while true
        invariant Shape() && 0 <= j < |vhp| == |old(vhp)|
        invariant Ordered(vhp, heat, |vhp|, 0, -1, j) && Grand(vhp, heat, |vhp|, 0, j)
        invariant SameVars(old(pos), pos)
        decreases j
      {
        // (j - 1) / 2 rounds toward zero
        var i := if j == 0 then 0 else (j - 1) / 2;
        if i == j || heat[vhp[j]] <= heat[vhp[i]] {
          break;
        }
        UpStep(vhp, heat, i, j);
        swap(i, j);
        j := i;
      }
    }

    /** The hottest child of place i among the first n places, or -1. */
    method hotChild(i: int, n: int) returns (j: int)
      requires Shape() && 0 <= i <= n <= |vhp|
      ensures j == -1 || (i < j < n && IsChild(i, j))
      ensures forall c :: i < c < n && IsChild(i, c) ==> j != -1 && heat[vhp[c]] <= heat[vhp[j]]
    {
      var j1 := 2 * i + 1;
      if j1 >= n {
        return -1;
      }
      j := j1;
      var j2 := j1 + 1;
      if j2 < n && heat[vhp[j1]] <= heat[vhp[j2]] {
        j := j2;
      }
    }

    method down(i0: int, n: int, ghost lo: int)
      requires Shape() && 0 <= i0 <= n <= |vhp| && lo <= i0
      requires Ordered(vhp, heat, n, lo, i0, i0) && Grand(vhp, heat, n, lo, i0)
      modifies this`pos, this`vhp
      ensures Shape() && |vhp| == |old(vhp)| && SameVars(old(pos), pos) && vhp[n..] == old(vhp)[n..]
      ensures Ordered(vhp, heat, n, lo, -1, i0) && Grand(vhp, heat, n, lo, i0)
    {
      hide Ordered, Grand, SameVars;
      SameVarsRefl(pos);
      var i := i0;
      while true
        invariant Shape() && 0 <= i0 <= i <= n <= |vhp| == |old(vhp)| && vhp[n..] == old(vhp)[n..]
        invariant SameVars(old(pos), pos)
        invariant Ordered(vhp, heat, n, lo, i, if i == i0 then i0 else -1) && Grand(vhp, heat, n, lo, i)
        decreases n - i
      {
        var j := hotChild(i, n);
        if j == -1 || heat[vhp[j]] <= heat[vhp[i]] {
          break;
        }
        DownStep(vhp, heat, n, lo, i0, i, j);
        ghost var p := pos;
        swap(i, j);
        SameVarsTrans(old(pos), p, pos);
        i := j;
      }
      DownEnd(vhp, heat, n, lo, i0, i);
    }

    /** Removes and returns a hottest variable. */
    method pop() returns (v: int)
      requires Valid() && |vhp| > 0
      modifies this`pos, this`vhp
      ensures Valid() && |vhp| == |old(vhp)| - 1 && |pos| == |old(pos)|
      ensures old(Has(v)) && forall u :: Has(u) <==> old(Has(u)) && u != v
      ensures forall u :: old(Has(u)) ==> heat[u] <= heat[v]
    {
      hide Ordered, Grand;
      ghost var vhp0, pos0 := vhp, pos;
      RootHottest(vhp, heat, pos);
      var n := |vhp| - 1;
      PopOrder(vhp, heat);
      swap(0, n);
      down(0, n, 0);
      v := vhp[n];
      assert v == vhp[n..][0] == vhp0[0];
      PopEnd(vhp, heat, n);
      vhp := vhp[..n];
      pos := pos[v := -1];
    }

    /** Puts the variable of m on the heap unless it is there, and notes its sign. */
    method Push(m: Lit)
      requires Valid() && 1 <= Var(m) < |pos|
      modifies this`pos, this`vhp, this`cache
      ensures Valid() && |pos| == |old(pos)| && cache == old(cache)[Var(m) := Sign(m)]
      ensures forall u :: Has(u) <==> old(Has(u)) || u == Var(m)
    {
      hide Ordered, Grand;
      var v := Var(m);
      cache := cache[v := Sign(m)];
      if pos[v] != -1 {
        return;
      }
      PushOrder(vhp, heat, v);
      pos := pos[v := |vhp|];
      vhp := vhp + [v];
      up(|vhp| - 1);
    }

    /** Adds to the heat of v, scaling all heats down when they get large. */
    method heatUp(v: int)
      requires Valid() && 0 <= v < |pos|
      modifies this`heat, this`bumpInc
      ensures Shape() && bumpInc > 0.0 && Heated(old(heat), old(bumpInc), heat, bumpInc, v)
      ensures Ordered(vhp, heat, |vhp|, 0, pos[v], pos[v]) && Grand(vhp, heat, |vhp|, 0, pos[v])
    {
      hide Ordered, Grand, Indexed;
      Heating(heat, bumpInc, v);
      BumpOrder(pos, vhp, heat, v, heat[v] + bumpInc);
      heat := heat[v := heat[v] + bumpInc];
      if heat[v] > BUMP_LIM {
        var scale := 1.0 / BUMP_LIM;
        ScaleOrder(vhp, heat, scale, pos[v]);
        heat := Scaled(heat, scale);
        bumpInc := bumpInc * scale;
      }
    }

    /** Heats the variable of m up. */
    method Bump(m: Lit)
      requires Valid() && 0 <= Var(m) < |pos|
      modifies this`pos, this`vhp, this`heat, this`bumpInc
      ensures Valid() && SameVars(old(pos), pos) && Heated(old(heat), old(bumpInc), heat, bumpInc, Var(m))
    {
      hide Ordered, Grand, SameVars, Heated;
      var v := Var(m);
      var p := pos[v];
      SameVarsRefl(pos);
      heatUp(v);
      if p != -1 {
        BumpInHeap(pos, vhp, v);
        down(p, |vhp|, 0);
        ghost var q := pos;
        up(p);
        SameVarsTrans(old(pos), q, pos);
      }
    }

    /** Each conflict adds more to the heat than the last; by how much is left open. */
    method Decay()
      requires Valid()
      modifies this`bumpInc
      ensures Valid()
    {
      var inc: real := *;
      if inc > 0.0 {
        bumpInc := inc;
      }
    }

    /** The signs to try first are set; to what is left open. */
    method setPhases()
      requires Valid()
      modifies this`cache
      ensures Valid()
    {
      var signs: seq<int> := *;
      if |signs| == |cache| {
        cache := signs;
      }
    }

    /** Pops until an unassigned variable comes up: a hottest one. */
    method Guess(vals: seq<int>) returns (m: Lit)
      requires Valid() && forall u :: Has(u) ==> 2 * u < |vals|
      modifies this`pos, this`vhp
      ensures Valid() && |pos| == |old(pos)|
      ensures m == NULL ==> forall u :: old(Has(u)) ==> vals[2 * u] != 0
      ensures m != NULL ==> old(Has(Var(m))) && vals[2 * Var(m)] == 0 && (IsPos(m) <==> cache[Var(m)] != -1)
      ensures m != NULL ==> forall u :: old(Has(u)) && vals[2 * u] == 0 ==> heat[u] <= heat[Var(m)]
      ensures forall u :: old(Has(u)) && vals[2 * u] == 0 && (m == NULL || u != Var(m)) ==> Has(u)
      ensures forall u :: Has(u) ==> old(Has(u))
    {
      hide Ordered, Grand;
      while |vhp| > 0
        invariant Valid() && |pos| == |old(pos)|
        invariant forall u :: Has(u) ==> old(Has(u))
        invariant forall u :: old(Has(u)) && vals[2 * u] == 0 ==> Has(u)
        decreases |vhp|
      {
        var v := pop();
        if vals[2 * v] == 0 {
          m := if cache[v] == -1 then 2 * v + 1 else 2 * v;
          return;
        }
      }
      m := NULL;
    }

    /** Makes room for variables up to u and puts the new ones on the heap. */
    method growToVar(u: int)
      requires Valid() && u + 1 >= |pos|
      modifies this
      ensures Valid() && |pos| == u + 1
      ensures forall v :: 0 <= v <= u ==> (pos[v] != -1 <==> v >= |old(pos)| || old(pos)[v] != -1)
      ensures heat == Pad(old(heat), u + 1, 0.0) && cache == Pad(old(cache), u + 1, 0) && bumpInc == old(bumpInc)
    {
      hide MaxHeap;
      var w := u + 1;
      heat := Pad(heat, w, 0.0);
      cache := Pad(cache, w, 0);
      for i := |pos| to w
        invariant |old(pos)| <= |pos| == i && Indexed(pos, vhp) && pos[0] == -1 && InRange(vhp, heat)
        invariant heat == Pad(old(heat), w, 0.0) && cache == Pad(old(cache), w, 0) && bumpInc == old(bumpInc)
        invariant forall v :: 0 <= v < i ==> (pos[v] != -1 <==> v >= |old(pos)| || old(pos)[v] != -1)
      {
        pos := pos + [|vhp|];
        vhp := vhp + [i];
      }
      heapify();
    }

    method heapify()
      requires Shape() && bumpInc > 0.0
      modifies this`pos, this`vhp
      ensures Valid() && SameVars(old(pos), pos)
    {
      hide Ordered, Grand, SameVars;
      SameVarsRefl(pos);
      var n := |vhp|;
      var i := n / 2 - 1;
      HeapifyStart(vhp, heat);
      while i >= 0
        invariant Shape() && |vhp| == n && -1 <= i < n
        invariant SameVars(old(pos), pos)
        invariant Ordered(vhp, heat, n, i + 1, -1, -1)
      {
        ghost var p := pos;
        HeapifyStep(vhp, heat, n, i);
        down(i, n, i);
        SameVarsTrans(old(pos), p, pos);
        HeapifyDone(vhp, heat, n, i);
        i := i - 1;
      }
    }
  }

  lemma SameVarsRefl(p: seq<int>)
    ensures SameVars(p, p)
  {
  }

  lemma SameVarsTrans(p: seq<int>, q: seq<int>, r: seq<int>)
    requires SameVars(p, q) && SameVars(q, r)
    ensures SameVars(p, r)
  {
  }

  lemma {:induction false} RootMax(vhp: seq<int>, heat: seq<real>, k: int)
    requires InRange(vhp, heat) && MaxHeap(vhp, heat) && 0 <= k < |vhp|
    ensures heat[vhp[k]] <= heat[vhp[0]]
  {
    if k > 0 {
      RootMax(vhp, heat, (k - 1) / 2);
      assert IsChild((k - 1) / 2, k);
      assert heat[vhp[k]] <= heat[vhp[(k - 1) / 2]];
    }
  }

  lemma RootHottest(vhp: seq<int>, heat: seq<real>, pos: seq<int>)
    requires Indexed(pos, vhp) && |heat| == |pos| && InRange(vhp, heat) && MaxHeap(vhp, heat) && |vhp| > 0
    ensures forall u :: 0 <= u < |pos| && pos[u] != -1 ==> heat[u] <= heat[vhp[0]]
  {
    forall u | 0 <= u < |pos| && pos[u] != -1 ensures heat[u] <= heat[vhp[0]] {
      RootMax(vhp, heat, pos[u]);
    }
  }

  lemma PopOrder(vhp: seq<int>, heat: seq<real>)
    requires InRange(vhp, heat) && MaxHeap(vhp, heat) && |vhp| > 0
    ensures var n := |vhp| - 1; var w := vhp[0 := vhp[n]][n := vhp[0]];
      InRange(w, heat) && Ordered(w, heat, n, 0, 0, 0) && Grand(w, heat, n, 0, 0)
  {
  }

  lemma PopEnd(vhp: seq<int>, heat: seq<real>, n: int)
    requires InRange(vhp, heat) && 0 <= n <= |vhp| && Ordered(vhp, heat, n, 0, -1, 0)
    ensures InRange(vhp[..n], heat) && MaxHeap(vhp[..n], heat)
  {
  }

  lemma PushOrder(vhp: seq<int>, heat: seq<real>, v: int)
    requires InRange(vhp, heat) && MaxHeap(vhp, heat) && 0 <= v < |heat|
    ensures var w := vhp + [v];
      InRange(w, heat) && Ordered(w, heat, |w|, 0, -1, |vhp|) && Grand(w, heat, |w|, 0, |vhp|)
  {
  }

  lemma BumpOrder(pos: seq<int>, vhp: seq<int>, heat: seq<real>, v: int, h: real)
    requires Indexed(pos, vhp) && |heat| == |pos| && InRange(vhp, heat) && MaxHeap(vhp, heat) && 0 <= v < |pos|
    ensures var heat' := heat[v := h];
      InRange(vhp, heat') && Ordered(vhp, heat', |vhp|, 0, pos[v], pos[v]) && Grand(vhp, heat', |vhp|, 0, pos[v])
  {
  }

  lemma BumpInHeap(pos: seq<int>, vhp: seq<int>, v: int)
    requires Indexed(pos, vhp) && 0 <= v < |pos| && pos[v] != -1
    ensures 0 <= pos[v] < |vhp|
  {
  }

  function Scaled(heat: seq<real>, s: real): (h: seq<real>)
    ensures |h| == |heat| && forall u :: 0 <= u < |heat| ==> h[u] == heat[u] * s
  {
    seq(|heat|, i requires 0 <= i < |heat| => heat[i] * s)
  }

  /** One step of inc0 more for v; past the limit all heats and the step shrink by one factor. */
  ghost predicate Heated(heat0: seq<real>, inc0: real, heat: seq<real>, inc: real, v: int)
    requires 0 <= v < |heat0|
  {
    var h := heat0[v] + inc0;
    var k := if h > BUMP_LIM then BUMP_LIM else 1.0;
    |heat| == |heat0| && inc * k == inc0 && forall u :: 0 <= u < |heat| ==> heat[u] * k == if u == v then h else heat0[u]
  }

  lemma Heating(heat: seq<real>, inc: real, v: int)
    requires 0 <= v < |heat|
    ensures var h := heat[v := heat[v] + inc]; var k := 1.0 / BUMP_LIM;
      if heat[v] + inc > BUMP_LIM then Heated(heat, inc, Scaled(h, k), inc * k, v) else Heated(heat, inc, h, inc, v)
  {
  }

  lemma ScaleMono(x: real, y: real, s: real)
    requires x <= y && s > 0.0
    ensures x * s <= y * s
  {
  }

  lemma ScaleOrder(vhp: seq<int>, heat: seq<real>, s: real, p: int)
    requires InRange(vhp, heat) && s > 0.0
    requires Ordered(vhp, heat, |vhp|, 0, p, p) && Grand(vhp, heat, |vhp|, 0, p)
    ensures var h := Scaled(heat, s);
      InRange(vhp, h) && Ordered(vhp, h, |vhp|, 0, p, p) && Grand(vhp, h, |vhp|, 0, p)
  {
    var h := Scaled(heat, s);
    forall x, y | 0 <= x < |heat| && 0 <= y < |heat| && heat[x] <= heat[y] ensures h[x] <= h[y] {
      ScaleMono(heat[x], heat[y], s);
    }
  }

  lemma HeapifyStart(vhp: seq<int>, heat: seq<real>)
    requires InRange(vhp, heat)
    ensures Ordered(vhp, heat, |vhp|, |vhp| / 2, -1, -1)
  {
  }

  lemma HeapifyStep(vhp: seq<int>, heat: seq<real>, n: int, i: int)
    requires InRange(vhp, heat) && 0 <= i < n <= |vhp| && Ordered(vhp, heat, n, i + 1, -1, -1)
    ensures Ordered(vhp, heat, n, i, i, i) && Grand(vhp, heat, n, i, i)
  {
  }

  lemma HeapifyDone(vhp: seq<int>, heat: seq<real>, n: int, i: int)
    requires InRange(vhp, heat) && 0 <= i < n <= |vhp| && Ordered(vhp, heat, n, i, -1, i)
    ensures Ordered(vhp, heat, n, i, -1, -1)
  {
  }

  lemma UpStep(vhp: seq<int>, heat: seq<real>, i: int, j: int)
    requires InRange(vhp, heat) && 0 <= i < j < |vhp| && IsChild(i, j)
    requires Ordered(vhp, heat, |vhp|, 0, -1, j) && Grand(vhp, heat, |vhp|, 0, j)
    requires heat[vhp[j]] > heat[vhp[i]]
    ensures var w := vhp[i := vhp[j]][j := vhp[i]];
      InRange(w, heat) && Ordered(w, heat, |w|, 0, -1, i) && Grand(w, heat, |w|, 0, i)
  {
  }

  lemma DownStep(vhp: seq<int>, heat: seq<real>, n: int, lo: int, i0: int, i: int, j: int)
    requires InRange(vhp, heat) && lo <= i0 <= i && 0 <= i < j < n <= |vhp| && IsChild(i, j)
    requires Ordered(vhp, heat, n, lo, i, if i == i0 then i0 else -1) && Grand(vhp, heat, n, lo, i)
    requires heat[vhp[j]] > heat[vhp[i]]
    requires forall c :: i < c < n && IsChild(i, c) ==> heat[vhp[c]] <= heat[vhp[j]]
    ensures var w := vhp[i := vhp[j]][j := vhp[i]];
      InRange(w, heat) && Ordered(w, heat, n, lo, j, -1) && Grand(w, heat, n, lo, j) && w[n..] == vhp[n..]
  {
  }

  lemma DownEnd(vhp: seq<int>, heat: seq<real>, n: int, lo: int, i0: int, i: int)
    requires InRange(vhp, heat) && lo <= i0 <= i && 0 <= i <= n <= |vhp|
    requires Ordered(vhp, heat, n, lo, i, if i == i0 then i0 else -1) && Grand(vhp, heat, n, lo, i)
    requires forall c :: i < c < n && IsChild(i, c) ==> heat[vhp[c]] <= heat[vhp[i]]
    ensures Ordered(vhp, heat, n, lo, -1, i0) && Grand(vhp, heat, n, lo, i0)
  {
    if i != i0 {
      forall g, c | lo <= g && 0 <= g < i0 < c < n && IsChild(g, i0) && IsChild(i0, c)
        ensures heat[vhp[c]] <= heat[vhp[g]]
      {
        assert heat[vhp[c]] <= heat[vhp[i0]] <= heat[vhp[g]];
      }
    }
  }
}
