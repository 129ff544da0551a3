/** Counting distinct variables, powers of two, and making lists longer. */
module Counting {
  import opened Lits

  /** The list s with copies of x up to length n. */
  function Pad<T>(s: seq<T>, n: int, x: T): (r: seq<T>)
    requires n >= |s|
    ensures |r| == n && (forall i :: 0 <= i < n ==> r[i] == if i < |s| then s[i] else x)
  {
    s + seq(n - |s|, _ => x)
  }

  lemma PadZeros(s: seq<int>, n: int)
    requires n >= |s| && forall i :: 0 <= i < |s| ==> s[i] == 0
    ensures |Pad(s, n, 0)| == n && forall i :: 0 <= i < n ==> Pad(s, n, 0)[i] == 0
  {
  }

  function Pow2(k: nat): (p: nat)
    ensures p >= 1
  {
    if k == 0 then 1 else 2 * Pow2(k - 1)
  }

  lemma {:induction false} PowGrows(n: nat)
    ensures Pow2(n) > n
  {
    if n > 0 {
      PowGrows(n - 1);
    }
  }

  ghost function VarsOf(t: seq<Lit>): set<int> {
    set m | m in t :: Var(m)
  }

  lemma VarsOfNil()
    ensures VarsOf([]) == {}
  {
  }

  lemma VarsOfAdd(t: seq<Lit>, m: Lit)
    ensures forall x :: x in VarsOf(t + [m]) <==> x in VarsOf(t) || x == Var(m)
  {
    assert forall n :: n in t + [m] <==> n in t || n == m;
  }

  lemma VarsOfCons(m: Lit, t: seq<Lit>)
    ensures forall x :: x in VarsOf([m] + t) <==> x in VarsOf(t) || x == Var(m)
  {
    assert forall n :: n in [m] + t <==> n in t || n == m;
  }

  lemma VarsOfLast(t: seq<Lit>)
    requires |t| > 0
    ensures VarsOf(t) == VarsOf(t[..|t| - 1]) + {Var(t[|t| - 1])}
  {
    var i := |t| - 1;
    forall x | x in VarsOf(t) ensures x in VarsOf(t[..i]) + {Var(t[i])} {
      var m :| m in t && Var(m) == x;
      var k :| 0 <= k < |t| && t[k] == m;
      assert k < i ==> t[..i][k] == m;
    }
  }

  /** No variable is twice among the literals, and each is between 1 and n - 1. */
  ghost predicate DistinctVars(t: seq<Lit>, n: int) {
    && (forall j, k :: 0 <= j < k < |t| ==> Var(t[j]) != Var(t[k]))
    && (forall k :: 0 <= k < |t| ==> 1 <= Var(t[k]) < n)
  }

  lemma {:induction false} DistinctCount(t: seq<Lit>, n: int)
    requires DistinctVars(t, n)
    ensures |VarsOf(t)| == |t|
    ensures forall x :: x in VarsOf(t) ==> 1 <= x < n
  {
    hide VarsOf, Var;
    if |t| > 0 {
      var i := |t| - 1;
      DistinctInit(t, n);
      DistinctCount(t[..i], n);
      VarsOfLast(t);
      assert |VarsOf(t[..i]) + {Var(t[i])}| == |VarsOf(t[..i])| + 1;
    } else {
      VarsOfNil();
    }
  }

  lemma DistinctInit(t: seq<Lit>, n: int)
    requires DistinctVars(t, n) && |t| > 0
    ensures DistinctVars(t[..|t| - 1], n) && Var(t[|t| - 1]) !in VarsOf(t[..|t| - 1])
  {
  }

  lemma {:induction false} RangeCount(s: set<int>, n: int)
    requires n >= 1 && forall x :: x in s ==> 1 <= x < n
    ensures |s| < n
  {
    if n == 1 {
      assert forall x :: x !in s;
    } else {
      RangeCount(s - {n - 1}, n - 1);
      assert n - 1 in s ==> s == (s - {n - 1}) + {n - 1};
      assert n - 1 !in s ==> s == s - {n - 1};
    }
  }

  /** Quotient and remainder are determined by their sum. */
  lemma DivMod(q: nat, r: nat, d: nat)
    requires r < d
    ensures (q * d + r) / d == q && (q * d + r) % d == r
  {
    var k := (q * d + r) / d;
    assert q * d + r == k * d + (q * d + r) % d;
    assert k > q ==> k * d >= (q + 1) * d;
    assert k < q ==> (k + 1) * d <= q * d;
  }
}
