/** Literals, valuations and clauses (z/lit.go).

  A literal is the code of its variable doubled, plus one when it is negated;
  the code 0 is the null literal that ends a clause.  A clause is read as the
  disjunction of its literals and a list of clauses as their conjunction. */
module Lits {

  type Lit = int

  const NULL: Lit := 0

  function Var(m: Lit): int {
    m / 2
  }

  predicate IsPos(m: Lit) {
    m % 2 == 0
  }

  // The literal of a variable with a given sign.
  function Mk(x: int, pos: bool): Lit {
    if pos then 2 * x else 2 * x + 1
  }

  // m ^ 1
  function Not(m: Lit): Lit {
    if m % 2 == 0 then m + 1 else m - 1
  }

  function Sign(m: Lit): int {
    if IsPos(m) then 1 else -1
  }

  /** A literal is its variable and its sign: all that the proofs about the
    solver need to know of the encoding. */
  lemma LitFacts()
    ensures forall m: Lit {:trigger Var(m)} :: Mk(Var(m), IsPos(m)) == m && 2 * Var(m) <= m <= 2 * Var(m) + 1
    ensures forall m: Lit {:trigger Not(m)} :: Not(m) == Mk(Var(m), !IsPos(m)) && Not(m) != m && Not(Not(m)) == m
    ensures forall x: int, b: bool {:trigger Mk(x, b)} :: Var(Mk(x, b)) == x && IsPos(Mk(x, b)) == b && 2 * x <= Mk(x, b) <= 2 * x + 1
  {
  }

  /** A valuation is the set of the variables that are true. */
  type Valuation = iset<int>

  ghost predicate Holds(v: Valuation, m: Lit) {
    (m / 2 in v) == (m % 2 == 0)
  }

  lemma HoldsNot(v: Valuation, m: Lit)
    ensures Holds(v, Not(m)) <==> !Holds(v, m)
  {
  }

  ghost predicate Sat(v: Valuation, c: seq<Lit>) {
    exists m :: m in c && Holds(v, m)
  }

  ghost predicate Models(v: Valuation, f: set<seq<Lit>>) {
    forall c :: c in f ==> Sat(v, c)
  }

  ghost predicate AllHold(v: Valuation, ms: seq<Lit>) {
    forall m :: m in ms ==> Holds(v, m)
  }
}
