/** The restart sequence (internal/xo/luby.go): the i-th call of Next returns the
  i-th number of the sequence 1 1 2 1 1 2 4 1 1 2 1 1 2 4 8 ... */
module Lubys {
  import opened Counting

  /** The number of binary digits of i. */
  function Bits(i: nat): nat {
    if i == 0 then 0 else 1 + Bits(i / 2)
  }

  lemma {:induction false} BitsBound(i: nat)
    requires i >= 1
    ensures Bits(i) >= 1 && Pow2(Bits(i) - 1) <= i < Pow2(Bits(i))
  {
    if i > 1 {
      BitsBound(i / 2);
    }
  }

  lemma {:induction false} BitsIs(i: nat, k: nat)
    requires k >= 1 && Pow2(k - 1) <= i < Pow2(k)
    ensures Bits(i) == k
  {
    if k > 1 {
      BitsIs(i / 2, k - 1);
    }
  }

  /** The i-th number of the sequence, by its recursive definition. */
  function LubyAt(i: nat): nat
    requires i >= 1
    decreases i
  {
    BitsBound(i);
    var k := Bits(i);
    if i == Pow2(k) - 1 then Pow2(k - 1)
    else assert k >= 2; LubyAt(i - Pow2(k - 1) + 1)
  }

  /** The sequence comes in blocks: two copies of a block, then the next power of 2. */
  function Block(k: nat): (b: seq<nat>)
    ensures |b| == Pow2(k) - 1
  {
    if k == 0 then [] else Block(k - 1) + Block(k - 1) + [Pow2(k - 1)]
  }

  lemma BlockParts(k: nat, j: nat)
    requires k >= 1 && j < Pow2(k) - 1
    ensures Pow2(k) == 2 * Pow2(k - 1)
    ensures var h := Pow2(k - 1);
      Block(k)[j] == if j < h - 1 then Block(k - 1)[j] else if j < 2 * h - 2 then Block(k - 1)[j - (h - 1)] else h
  {
  }

  lemma {:induction false} BlockIsLuby(k: nat, i: nat)
    requires 1 <= i < Pow2(k)
    ensures Block(k)[i - 1] == LubyAt(i)
  {
    if k > 0 {
      var h := Pow2(k - 1);
      BlockParts(k, i - 1);
      if i < h {
        BlockIsLuby(k - 1, i);
      } else {
        BitsIs(i, k);
        if i < 2 * h - 1 {
          BlockIsLuby(k - 1, i - h + 1);
        }
      }
    }
  }

  // ---- the machine ----

  datatype LubyState = LubyState(exp: nat, turns: nat)

  function Emit(s: LubyState): nat {
    Pow2(s.exp)
  }

  // res & turns == 0, for res a power of 2
  function Step(s: LubyState): LubyState {
    if (s.turns / Pow2(s.exp)) % 2 == 0 then LubyState(0, s.turns + 1) else LubyState(s.exp + 1, s.turns)
  }

  function After(s: LubyState, n: nat): LubyState {
    if n == 0 then s else Step(After(s, n - 1))
  }

  lemma {:induction false} AfterAdd(s: LubyState, m: nat, n: nat)
    ensures After(s, m + n) == After(After(s, m), n)
  {
    if n > 0 {
      AfterAdd(s, m, n - 1);
    }
  }

  /** From s the machine emits b and is then in state t. */
  ghost predicate Runs(s: LubyState, b: seq<nat>, t: LubyState) {
    After(s, |b|) == t && forall j :: 0 <= j < |b| ==> Emit(After(s, j)) == b[j]
  }

  lemma RunsConcat(s: LubyState, b: seq<nat>, t: LubyState, c: seq<nat>, u: LubyState)
    requires Runs(s, b, t) && Runs(t, c, u)
    ensures Runs(s, b + c, u)
  {
    AfterAdd(s, |b|, |c|);
    forall j | 0 <= j < |b + c| ensures Emit(After(s, j)) == (b + c)[j] {
      if j >= |b| {
        AfterAdd(s, |b|, j - |b|);
      }
    }
  }

  /** The state after block k from turn a * 2^(k-1): the next turn, or the next
    exponent of the same turn when a is odd. */
  function BlockEnd(k: nat, a: nat): LubyState
    requires k >= 1
  {
    var p := Pow2(k - 1);
    if a % 2 == 0 then LubyState(0, (a + 1) * p) else LubyState(k, (a + 1) * p - 1)
  }

  /** The last number of block k, at the end of its second half. */
  lemma RunsLast(k: nat, a: nat)
    requires k >= 2
    ensures Runs(BlockEnd(k - 1, 2 * a + 1), [Pow2(k - 1)], BlockEnd(k, a))
    ensures BlockEnd(k - 1, 2 * a) == LubyState(0, (2 * a + 1) * Pow2(k - 2))
  {
    var p := Pow2(k - 1);
    var e := LubyState(k - 1, (a + 1) * p - 1);
    HalfEnds(k, a);
    LastStep(k, a, p);
    hide Pow2, BlockEnd, Step;
    RunsOne(e);
  }

  /** Where the two halves of block k end. */
  lemma HalfEnds(k: nat, a: nat)
    requires k >= 2
    ensures BlockEnd(k - 1, 2 * a + 1) == LubyState(k - 1, (a + 1) * Pow2(k - 1) - 1)
    ensures BlockEnd(k - 1, 2 * a) == LubyState(0, (2 * a + 1) * Pow2(k - 2))
  {
    var q := Pow2(k - 2);
    assert Pow2(k - 1) == 2 * q;
    Halve(a + 1, q);
    hide Pow2;
    assert (2 * a + 1) % 2 == 1 && (2 * a) % 2 == 0;
    assert 2 * a + 1 + 1 == 2 * (a + 1);
  }

  lemma LastStep(k: nat, a: nat, p: nat)
    requires k >= 1 && p == Pow2(k - 1)
    ensures Step(LubyState(k - 1, (a + 1) * p - 1)) == BlockEnd(k, a)
  {
    assert (a + 1) * p - 1 == a * p + (p - 1);
    DivMod(a, p - 1, p);
    hide Pow2;
  }

  lemma RunsOne(e: LubyState)
    ensures Runs(e, [Emit(e)], Step(e))
  {
    assert After(e, 1) == Step(After(e, 0));
  }

  /** A block is two blocks of half the size and one number more. */
  lemma RunsTwice(k: nat, a: nat)
    requires k >= 2
    requires Runs(LubyState(0, (2 * a) * Pow2(k - 2)), Block(k - 1), BlockEnd(k - 1, 2 * a))
    requires Runs(LubyState(0, (2 * a + 1) * Pow2(k - 2)), Block(k - 1), BlockEnd(k - 1, 2 * a + 1))
    ensures Runs(LubyState(0, (2 * a) * Pow2(k - 2)), Block(k), BlockEnd(k, a))
  {
    var b, p := Block(k - 1), Pow2(k - 1);
    RunsLast(k, a);
    hide Runs, BlockEnd, Pow2;
    var s, m, e, t := LubyState(0, (2 * a) * Pow2(k - 2)), BlockEnd(k - 1, 2 * a), BlockEnd(k - 1, 2 * a + 1), BlockEnd(k, a);
    RunsConcat(s, b, m, b, e);
    RunsConcat(s, b + b, e, [p], t);
  }

  lemma {:induction false} RunsBlock(k: nat, a: nat)
    requires k >= 1
    ensures Runs(LubyState(0, a * Pow2(k - 1)), Block(k), BlockEnd(k, a))
  {
    if k == 1 {
      assert After(LubyState(0, a), 1) == Step(After(LubyState(0, a), 0));
      assert Block(1) == [1];
    } else {
      RunsBlock(k - 1, 2 * a);
      RunsBlock(k - 1, 2 * a + 1);
      RunsTwice(k, a);
      Halve(a, Pow2(k - 2));
    }
  }

  lemma Halve(a: nat, q: nat)
    ensures (2 * a) * q == a * (2 * q)
  {
  }

  /** What the machine emits after n steps from the start. */
  lemma EmitsLuby(n: nat)
    ensures Emit(After(LubyState(0, 0), n)) == LubyAt(n + 1)
  {
    var k := n + 1;
    PowGrows(k);
    RunsBlock(k, 0);
    assert LubyState(0, 0 * Pow2(k - 1)) == LubyState(0, 0);
    BlockIsLuby(k, n + 1);
    assert n < |Block(k)|;
  }

  /** The sequence is unbounded: 2^(k-1) comes at place 2^k - 1. */
  lemma LubyPeak(k: nat)
    requires k >= 1
    ensures LubyAt(Pow2(k) - 1) == Pow2(k - 1)
  {
    BitsIs(Pow2(k) - 1, k);
  }

  lemma LubyFirst()
    ensures LubyAt(1) == 1 && LubyAt(2) == 1 && LubyAt(3) == 2
  {
    LubyPeak(1);
    LubyPeak(2);
    BitsIs(2, 2);
  }

  class Luby {
    var exp: nat
    var turns: nat
    ghost var calls: nat

    ghost predicate Valid()
      reads this
    {
      LubyState(exp, turns) == After(LubyState(0, 0), calls)
    }

    constructor ()
      ensures Valid() && calls == 0
    {
      exp, turns, calls := 0, 0, 0;
    }

    method Next() returns (res: nat)
      requires Valid()
      modifies this
      ensures Valid() && calls == old(calls) + 1 && res == LubyAt(calls)
    {
      EmitsLuby(calls);
      res := Pow2(exp);
      if (turns / res) % 2 == 0 {
        exp := 0;
        turns := turns + 1;
      } else {
        exp := exp + 1;
      }
      calls := calls + 1;
    }
  }
}
