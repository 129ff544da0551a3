/** Using the solver incrementally: the contracts of its methods fit together. */
module Sessions {
  import opened Lits
  import opened Soundness
  import opened Solver

  /** Adds a clause literal by literal. */
  method addClause(s: S, c: seq<Lit>)
    requires s.Usable() && s.Callable() && s.cdb.AddLits == [] && forall m :: m in c ==> m >= 2
    modifies s`F, s`x, s`xLit, s`failed, s.vars, s.trail, s.guess, s.driver`Lvls, s.driver`Seen, s.driver`Rdnt
    modifies s.cdb, s.cdb.cdat
    ensures s.Ready() && s.Callable() && s.x == 0 && s.xLit == NULL && s.cdb.AddLits == []
    ensures s.F == old(s.F) + {c} && s.vars.Max >= old(s.vars.Max) && forall m :: m in c ==> m <= 2 * s.vars.Max + 1
  {
    hide S.Sane, S.Ready, S.Conflict;
    for i := 0 to |c|
      invariant forall m :: m in c[..i] ==> m <= 2 * s.vars.Max + 1
      invariant s.Usable() && s.Callable() && s.cdb.AddLits == c[..i] && s.F == old(s.F) && s.vars.Max >= old(s.vars.Max)
    {
      assert c[i] in c && c[..i + 1] == c[..i] + [c[i]];
      s.Add(c[i]);
    }
    assert c[..|c|] == c;
    s.Add(NULL);
  }

  /** The values of the variables in use, as the solver tells them. */
  method readModel(s: S) returns (model: seq<bool>)
    requires s.vars.Max >= 0 && 2 * s.vars.Max + 1 < |s.vars.Vals|
    ensures |model| == s.vars.Max + 1 && forall u :: 1 <= u <= s.vars.Max ==> model[u] == s.Value(2 * u)
  {
    hide S.Value;
    model := [false];
    for u := 1 to s.vars.Max + 1
      invariant |model| == u && forall k :: 1 <= k < u ==> model[k] == s.Value(2 * k)
    {
      model := model + [s.Value(2 * u)];
    }
  }

  ghost function Read(model: seq<bool>): Valuation {
    iset u: int | 1 <= u < |model| && model[u]
  }

  /** On literals of variables in use the model read is the valuation of the solver. */
  lemma ReadHolds(s: S, model: seq<bool>, c: seq<Lit>)
    requires |model| == s.vars.Max + 1 && 2 * s.vars.Max + 1 < |s.vars.Vals|
    requires forall u :: 1 <= u <= s.vars.Max ==> model[u] == s.Value(2 * u)
    requires forall m :: 2 <= m <= 2 * s.vars.Max + 1 ==> (s.Value(m) <==> Holds(ValOf(s.vars.Vals), m))
    requires forall m :: m in c ==> 2 <= m <= 2 * s.vars.Max + 1
    ensures Sat(Read(model), c) <==> Sat(ValOf(s.vars.Vals), c)
    ensures AllHold(Read(model), c) <==> AllHold(ValOf(s.vars.Vals), c)
  {
    hide S.Value, ValOf;
    forall m | m in c ensures Holds(Read(model), m) <==> Holds(ValOf(s.vars.Vals), m) {
      var u := m / 2;
      assert model[u] == s.Value(2 * u);
      assert s.Value(2 * u) <==> Holds(ValOf(s.vars.Vals), 2 * u);
    }
  }

  /** Clause c is solved under assumptions.  If there is a model it is read; then d is
    added and both are solved.  If not, c is solved without assumptions. */
  method solveTwice(hint: int, c: seq<Lit>, asked: seq<Lit>, d: seq<Lit>) returns (r: int, model: seq<bool>, why: seq<Lit>, r': int)
    requires (forall m :: m in c ==> m >= 2) && (forall m :: m in asked ==> m >= 2) && (forall m :: m in d ==> m >= 2)
    ensures r == (if Satisfiable({c}, asked) then 1 else -1)
    ensures r == 1 ==> Sat(Read(model), c) && AllHold(Read(model), asked)
    ensures r == -1 ==> Refuted({c}, why) && forall m :: m in why ==> m in asked
    ensures r == -1 && Satisfiable({c}, []) ==> r' == 1
    ensures r == 1 ==> why == [] && r' == if Satisfiable({c, d}, []) then 1 else -1
  {
    hide S.Sane, S.Ready, S.Conflict, S.Failing, S.Value, Satisfiable, Refuted, Sat, AllHold, Read, ValOf, Holds;
    var s := new S(hint);
    s.ReadyUsable();
    addClause(s, c);
    s.Assume(asked);
    assert s.F == {c} && s.assumes == asked;
    assert forall m :: m in c || m in asked ==> 2 <= m <= 2 * s.vars.Max + 1;
    var lost;
    r, lost := s.Solve();
    why := s.Why([]);
    assert why[0..] == why;
    model := [];
    if r == 1 {
      model := readModel(s);
      ReadHolds(s, model, c);
      ReadHolds(s, model, asked);
      assert c in s.F;
      s.ReadyUsable();
      addClause(s, d);
      assert s.F == {c, d};
      r', lost := s.Solve();
    } else {
      r', lost := s.Solve();
      if lost {
        RefutedUnsat({c}, []);
      }
    }
  }
}
