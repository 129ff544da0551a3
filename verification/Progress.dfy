/** Why the search ends: each step makes the assignment heavier, and weights are
  bounded (internal/xo/s.go:226-304). */
module Progress {
  import opened Lits
  import opened Assignment

  function Power(b: nat, e: nat): (p: nat)
    ensures b >= 1 ==> p >= 1
  {
    if e == 0 then 1 else b * Power(b, e - 1)
  }

  /** A literal weighs more than all literals of higher levels together. */
  ghost function Weight(lv: seq<int>, n: nat): nat {
    if |lv| == 0 then 0
    else Weight(lv[..|lv| - 1], n) + LitWeight(lv[|lv| - 1], n)
  }

  ghost function LitWeight(l: int, n: nat): (w: nat)
    ensures w >= 1
  {
    if 0 <= l <= n then Power(n + 1, n - l) else 1
  }

  lemma {:induction false} PowerMono(b: nat, e: nat, d: nat)
    requires b >= 1 && d <= e
    ensures Power(b, d) <= Power(b, e)
  {
    if d < e {
      PowerMono(b, e - 1, d);
      assert Power(b, e) == b * Power(b, e - 1);
      Grows(b, Power(b, e - 1));
    }
  }

  lemma Grows(b: nat, p: nat)
    requires b >= 1
    ensures b * p >= p
  {
  }

  lemma LitWeightMono(l: int, k: int, n: nat)
    requires 0 <= k <= l
    ensures LitWeight(l, n) <= LitWeight(k, n)
  {
    if l <= n {
      PowerMono(n + 1, n - k, n - l);
    }
  }

  lemma WeightAdd(lv: seq<int>, l: int, n: nat)
    ensures Weight(lv + [l], n) == Weight(lv, n) + LitWeight(l, n)
  {
    assert (lv + [l])[..|lv|] == lv;
  }

  lemma {:induction false} WeightPrefix(lv: seq<int>, lv': seq<int>, n: nat)
    requires lv <= lv'
    ensures Weight(lv, n) <= Weight(lv', n)
  {
    if |lv| < |lv'| {
      WeightPrefix(lv, lv'[..|lv'| - 1], n);
    } else {
      assert lv == lv';
    }
  }

  /** Literals of level l or more weigh no more than one of level l each. */
  lemma {:induction false} WeightFrom(lv: seq<int>, k: int, l: int, n: nat)
    requires 0 <= k <= |lv| && 0 <= l && forall j :: k <= j < |lv| ==> lv[j] >= l
    ensures Weight(lv, n) <= Weight(lv[..k], n) + (|lv| - k) * LitWeight(l, n)
  {
    var i := |lv| - 1;
    if k <= i {
      WeightFrom(lv[..i], k, l, n);
      WeightLast(lv, k, l, n);
    } else {
      assert lv[..k] == lv;
    }
  }

  lemma WeightLast(lv: seq<int>, k: int, l: int, n: nat)
    requires 0 <= k < |lv| && 0 <= l <= lv[|lv| - 1]
    requires Weight(lv[..|lv| - 1], n) <= Weight(lv[..|lv| - 1][..k], n) + (|lv| - 1 - k) * LitWeight(l, n)
    ensures Weight(lv, n) <= Weight(lv[..k], n) + (|lv| - k) * LitWeight(l, n)
  {
    hide LitWeight;
    var i := |lv| - 1;
    assert lv[..i][..k] == lv[..k];
    LitWeightMono(lv[i], l, n);
    Step(i - k, LitWeight(l, n));
  }

  lemma Step(i: int, w: nat)
    ensures (i + 1) * w == i * w + w
  {
  }

  lemma Scale(i: int, n: nat, w: nat)
    requires i <= n
    ensures i * w <= n * w
  {
  }

  ghost function MaxWeight(n: nat): nat {
    n * LitWeight(0, n)
  }

  lemma WeightBound(lv: seq<int>, n: nat)
    requires |lv| <= n && forall j :: 0 <= j < |lv| ==> lv[j] >= 0
    ensures Weight(lv, n) <= MaxWeight(n)
  {
    WeightFrom(lv, 0, 0, n);
    assert lv[..0] == [];
    Scale(|lv|, n, LitWeight(0, n));
  }

  lemma LevelDown(l: int, n: nat)
    requires 0 <= l < n
    ensures LitWeight(l, n) == (n + 1) * LitWeight(l + 1, n)
  {
  }

  /** Going back to level l and assigning one literal there is progress. */
  lemma WeightJump(lv: seq<int>, k: int, l: int, n: nat)
    requires 0 <= k <= |lv| <= n && 0 <= l < n && forall j :: k <= j < |lv| ==> lv[j] > l
    ensures Weight(lv[..k] + [l], n) > Weight(lv, n)
  {
    var w := LitWeight(l + 1, n);
    WeightAdd(lv[..k], l, n);
    WeightFrom(lv, k, l + 1, n);
    LevelDown(l, n);
    Scale(|lv| - k, n, w);
    Step(n, w);
  }

  // ---- the assignment ----

  ghost function Rank(a: Asn): nat {
    Weight(a.lv, |a.reasons|)
  }

  lemma RankBound(a: Asn)
    requires AsnOk(a)
    ensures Rank(a) <= MaxWeight(|a.reasons|)
  {
    TrailBound(a);
    RankLevels(a);
    hide AsnOk;
    WeightBound(a.lv, |a.reasons|);
  }

  lemma RankLevels(a: Asn)
    requires AsnOk(a)
    ensures |a.lv| == |a.trail| && forall j :: 0 <= j < |a.lv| ==> 0 <= a.lv[j] <= a.level
  {
  }

  lemma RankAssign(a: Asn, m: Lit, c: int)
    requires Sizes(a) && LitOk(a, m)
    ensures Rank(Assigned(a, m, c)) > Rank(a)
  {
    WeightAdd(a.lv, if c == 0 then a.level + 1 else a.level, |a.reasons|);
  }

  /** Backjump from a conflict to level tgt and the assignment of a literal there. */
  lemma RankJump(a: Asn, b: Asn, k: int, tgt: int, m: Lit, c: int)
    requires AsnOk(a) && IsCut(a, b, k, tgt) && tgt < a.level && Sizes(b) && LitOk(b, m) && c != 0
    ensures Rank(Assigned(b, m, c)) > Rank(a)
  {
    TrailBound(a);
    LevelFits(a);
    RankLevels(a);
    hide AsnOk;
    WeightJump(a.lv, k, tgt, |a.reasons|);
  }
}
