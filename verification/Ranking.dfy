/** The order in which derived clauses are considered for removal (internal/xo/cgc.go:248-296):
  the last first.  A clause comes before another if its rank is lower, where ranks from 8 on
  are alike, then if it is hotter, then if it is shorter, then if it is stored later. */
module Ranking {
  import opened Headers

  const RANKS: int := 8

  function HeaderAt(d: seq<int>, p: int): int {
    if 1 <= p <= |d| then d[p - 1] else 0
  }

  predicate Less(d: seq<int>, p: int, q: int) {
    var ph, qh := HeaderAt(d, p), HeaderAt(d, q);
    var pd, qd := Lbd(ph), Lbd(qh);
    if (pd < RANKS || qd < RANKS) && pd != qd then pd < qd
    else if Heat(ph) != Heat(qh) then Heat(ph) > Heat(qh)
    else if SizeBits(ph) != SizeBits(qh) then SizeBits(ph) < SizeBits(qh)
    else q < p
  }

  /** The worth of a clause, to be compared number by number, the less the better. */
  function Worth(d: seq<int>, p: int): (w: seq<int>)
    ensures |w| == 4
  {
    var h := HeaderAt(d, p);
    [if Lbd(h) < RANKS then Lbd(h) else RANKS, -Heat(h), SizeBits(h), -p]
  }

  predicate Lex(v: seq<int>, w: seq<int>)
    requires |v| == |w|
  {
    |v| > 0 && (v[0] < w[0] || (v[0] == w[0] && Lex(v[1..], w[1..])))
  }

  /** The code's comparison, which looks at ranks only if one is below 8, is that of the
    worth, hence an order. */
  lemma {:induction false} LessIsWorth(d: seq<int>, p: int, q: int)
    ensures Less(d, p, q) <==> Lex(Worth(d, p), Worth(d, q))
  {
    hide Lbd, Heat, SizeBits;
    var v, w := Worth(d, p), Worth(d, q);
    assert Lex(v, w) <==> v[0] < w[0] || (v[0] == w[0] && Lex(v[1..], w[1..]));
    assert Lex(v[1..], w[1..]) <==> v[1] < w[1] || (v[1] == w[1] && Lex(v[2..], w[2..])) by {
      assert v[1..][1..] == v[2..] && w[1..][1..] == w[2..];
    }
    assert Lex(v[2..], w[2..]) <==> v[2] < w[2] || (v[2] == w[2] && Lex(v[3..], w[3..])) by {
      assert v[2..][1..] == v[3..] && w[2..][1..] == w[3..];
    }
    assert Lex(v[3..], w[3..]) <==> v[3] < w[3] by {
      assert v[3..][1..] == [] && w[3..][1..] == [];
    }
  }

  /** Of two clauses one comes first. */
  lemma LessTotal(d: seq<int>, p: int, q: int)
    ensures p == q ==> !Less(d, p, q)
    ensures p != q ==> (Less(d, p, q) <==> !Less(d, q, p))
  {
    hide Lbd, Heat, SizeBits;
  }

  lemma LessTrans(d: seq<int>, p: int, q: int, r: int)
    requires Less(d, p, q) && Less(d, q, r)
    ensures Less(d, p, r)
  {
    hide Lbd, Heat, SizeBits;
  }

  ghost predicate Sorted(d: seq<int>, s: seq<int>) {
    forall j, k :: 0 <= j < k < |s| ==> !Less(d, s[k], s[j])
  }

  function InsertBy(d: seq<int>, s: seq<int>, p: int): (r: seq<int>)
    ensures multiset(r) == multiset(s) + multiset{p}
  {
    if |s| == 0 || !Less(d, s[0], p) then [p] + s
    else assert s == [s[0]] + s[1..]; [s[0]] + InsertBy(d, s[1..], p)
  }

  function SortBy(d: seq<int>, s: seq<int>): (r: seq<int>)
    ensures multiset(r) == multiset(s)
  {
    if |s| == 0 then []
    else assert s == s[..|s| - 1] + [s[|s| - 1]]; InsertBy(d, SortBy(d, s[..|s| - 1]), s[|s| - 1])
  }

  lemma NotLessTrans(d: seq<int>, p: int, q: int, r: int)
    requires !Less(d, q, p) && !Less(d, r, q)
    ensures !Less(d, r, p)
  {
    hide Less;
    LessTotal(d, p, q);
    LessTotal(d, q, r);
    LessTotal(d, p, r);
    if p != q && q != r {
      LessTrans(d, p, q, r);
    }
  }

  lemma {:induction false} InsertSorted(d: seq<int>, s: seq<int>, p: int)
    requires Sorted(d, s)
    ensures Sorted(d, InsertBy(d, s, p))
  {
    hide Less;
    var r := InsertBy(d, s, p);
    if |s| == 0 || !Less(d, s[0], p) {
      forall k | 1 <= k < |r| ensures !Less(d, r[k], p) {
        if k > 1 { NotLessTrans(d, p, s[0], s[k - 1]); }
      }
    } else {
      var t := InsertBy(d, s[1..], p);
      InsertSorted(d, s[1..], p);
      LessTotal(d, s[0], p);
      forall k | 1 <= k < |r| ensures !Less(d, r[k], s[0]) {
        assert r[k] == t[k - 1];
        assert t[k - 1] in multiset(t);
        if r[k] != p {
          var j :| 0 <= j < |s[1..]| && s[1..][j] == r[k];
          assert s[j + 1] == r[k];
        }
      }
    }
  }

  lemma {:induction false} SortSorted(d: seq<int>, s: seq<int>)
    ensures Sorted(d, SortBy(d, s))
  {
    if |s| > 0 {
      SortSorted(d, s[..|s| - 1]);
      InsertSorted(d, SortBy(d, s[..|s| - 1]), s[|s| - 1]);
    }
  }
}
