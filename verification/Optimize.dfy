// Minimisation by repeated solving: Minimize and AppendClause (solver/solver.go) over a decision procedure.
module Optimize {
  import opened Logic
  import opened Bindings
  import opened Linear
  import opened PbClause
  import opened PbConstr
  import opened SimplifyPb

  // The outcome of a search: an assignment and what is bound at level 1 by then, or nothing.
  datatype Answer = NoAnswer | Answer(a: Assignment, fixed: Model)

  type Oracle = (seq<Constr>, seq<Lit>) -> Answer

  // No literal is bound both ways. propagateUnits binds a literal over its negation without noticing, so the
  // search is trusted only on consistent units.
  ghost predicate Coherent(units: seq<Lit>) { forall u :: u in units ==> u.Neg() !in units }

  // What is asked of Solve: it is sound and complete, and binds at level 1 only what every solution makes true.
  ghost predicate Exact(solve: Oracle)
  {
    forall cs, units :: Coherent(units) ==> Right(solve(cs, units), cs, units)
  }

  ghost predicate Right(r: Answer, cs: seq<Constr>, units: seq<Lit>)
  {
    match r
    case NoAnswer => NoSolution(cs, units)
    case Answer(a, fixed) => SolvesPb(a, cs, units) && Fixes(fixed, cs, units)
  }

  // Every solution follows m, and m binds every unit.
  ghost predicate Fixes(m: Model, cs: seq<Constr>, units: seq<Lit>)
  {
    (forall a: Assignment :: SolvesPb(a, cs, units) ==> Follows(a, m))
    && forall u :: u in units ==> True(m, u)
  }

  function Above(units: seq<Lit>): (n: nat)
    ensures forall u :: u in units ==> u.v < n
  {
    if units == [] then 0
    else
      var n := Above(units[1..]);
      assert units == [units[0]] + units[1..];
      if units[0].v < n then n else units[0].v + 1
  }

  function UnitModel(units: seq<Lit>): Model
  {
    seq(Above(units), v => if v < 0 then 0 else if Lit(v, true) in units then 1 else if Lit(v, false) in units then -1 else 0)
  }

  // A search that meets the requirement exists: it can bind just the units.
  lemma ExactExists()
    ensures exists solve: Oracle :: Exact(solve)
  {
    var solve: Oracle := (cs, units) =>
      if NoSolution(cs, units) then NoAnswer else var a: Assignment :| SolvesPb(a, cs, units); Answer(a, UnitModel(units));
    forall cs, units | Coherent(units) ensures Right(solve(cs, units), cs, units) {
      UnitsFixed(cs, units);
    }
    assert Exact(solve);
  }

  lemma UnitsFixed(cs: seq<Constr>, units: seq<Lit>)
    requires Coherent(units)
    ensures Fixes(UnitModel(units), cs, units)
  {
    var m := UnitModel(units);
    forall a: Assignment | SolvesPb(a, cs, units) ensures Follows(a, m) {
      forall v | 0 <= v < |m| && m[v] != 0 ensures a(v) == (m[v] > 0) {
        assert Lit(v, m[v] > 0) in Elems(units);
      }
    }
    forall u | u in units ensures True(m, u) {
      assert u.Neg() !in units && u == Lit(u.v, u.pos);
    }
  }

  // No literal together with its negation.
  ghost predicate Unclashing(ts: seq<Term>) { forall t, u :: t in ts && u in ts ==> t.l != u.l.Neg() }

  class Optimizer {
    const solve: Oracle
    const minLits: seq<Term>
    ghost const given: seq<Lit>        // the unit literals the problem started with
    ghost var problem: seq<Constr>     // the constraints it started with, and those appended since
    var clauses: seq<Constr>
    var units: seq<Lit>
    var model: Model
    var status: Status
    var lastModel: Assignment

    constructor (solve: Oracle, minLits: seq<Term>, clauses: seq<Constr>, units: seq<Lit>, model: Model)
      requires Exact(solve) && Coherent(units) && Fixes(model, clauses, units)
      ensures this.solve == solve && this.minLits == minLits && problem == clauses && given == units
      ensures status == Indet && Valid()
    {
      this.solve, this.minLits, this.clauses, this.units, this.model := solve, minLits, clauses, units, model;
      this.given, this.problem := units, clauses;
      status := Indet;
      lastModel := (v: nat) => false;
    }

    // The clauses and units kept mean the problem, unless it was found to have no solution.
    ghost predicate Valid()
      reads this
    {
      Exact(solve) && Coherent(units) && Fixes(model, clauses, units)
      && if status == IsUnsat then NoSolution(problem, given) else SameSolutions(problem, given, clauses, units)
    }

    method Solve()
      requires Valid()
      modifies this`status, this`model, this`lastModel
      ensures Valid() && status != Indet
      ensures status == IsSat ==> SolvesPb(lastModel, problem, given)
    {
      if status == IsUnsat {
        return;
      }
      assert Coherent(units);
      match solve(clauses, units) {
        case NoAnswer =>
          status := IsUnsat;
        case Answer(a, fixed) =>
          status, lastModel, model := IsSat, a, fixed;
      }
    }

    method NewVar(v: nat)
      requires Valid()
      modifies this`model
      ensures Valid() && v < |model| && |old(model)| <= |model|
      ensures forall l: Lit :: (True(model, l) <==> True(old(model), l)) && (False(model, l) <==> False(old(model), l))
    {
      if v >= |model| {
        model := model + seq(v + 1 - |model|, _ => 0);
      }
    }

    method PropagateUnits(lits: seq<Lit>)
      requires Exact(solve) && Coherent(units) && Fixes(model, clauses, units)
      requires forall l :: l in lits ==> l.v < |model| && !False(model, l) && l.Neg() !in lits
      modifies this`model, this`units
      ensures Coherent(units) && Fixes(model, clauses, units) && units == old(units) + lits
    {
      hide Exact, Fixes, Coherent;
      for i := 0 to |lits|
        invariant Coherent(units) && Fixes(model, clauses, units)
        invariant units == old(units) + lits[..i] && |model| == |old(model)|
        invariant forall k :: i <= k < |lits| ==> !False(model, lits[k])
      {
        var unit := lits[i];
        assert unit in lits && lits[..i + 1] == lits[..i] + [unit];
        forall k | i < k < |lits| ensures lits[k] != unit.Neg() {
          assert lits[k] in lits;
        }
        UnitAdded(model, clauses, units, unit);
        model := model[unit.v := if unit.pos then 1 else -1];
        units := units + [unit];
        assert units == old(units) + lits[..i + 1];
      }
      assert lits[..|lits|] == lits;
    }

    // Removes the terms already bound from the clause, and adds up the weight of the true ones and of all not false.
    method ReadClause(clause: WeightedClause) returns (minW: int, maxW: int)
      requires Valid() && Positive(clause.terms) && clause.card >= 1 && Unclashing(clause.terms)
      modifies this`model, clause
      ensures Valid() && Positive(clause.terms) && Unclashing(clause.terms)
      ensures forall t :: t in clause.terms ==> t.l.v < |model| && !False(model, t.l)
      ensures Reading(model, old(clause.Value()), clause.terms, minW) && maxW == minW + WeightSum(clause.terms)
      ensures clause.card == Lowered(old(clause.card) - minW, 0)
    {
      hide Exact, Fixes, Coherent, NoSolution, SameSolutions, Unclashing, ReadUpTo, True, False;
      ghost var c0 := clause.Value();
      var i := 0;
      minW, maxW := 0, 0;
      ReadNothing(model, c0);
      while i < |clause.terms|
        invariant Valid() && i <= |clause.terms|
        invariant ReadUpTo(model, c0, clause.terms, i, minW, maxW) && clause.card == Lowered(c0.card - minW, 0)
        decreases |clause.terms| - i
      {
        var t := clause.terms[i];
        ghost var m := model;
        NewVar(t.l.v);
        ReadLonger(m, model, c0, clause.terms, i, minW, maxW);
        if True(model, t.l) {
          ReadTrue(model, c0, clause.terms, i, minW, maxW);
          minW := minW + t.w;
          maxW := maxW + t.w;
          clause.RemoveLit(i);
          clause.UpdateCardinality(-t.w);
        } else if False(model, t.l) {
          ReadFalse(model, c0, clause.terms, i, minW, maxW);
          clause.RemoveLit(i);
        } else {
          ReadOpen(model, c0, clause.terms, i, minW, maxW);
          maxW := maxW + t.w;
          i := i + 1;
        }
      }
      ReadAll(model, c0, clause.terms, minW, maxW);
    }

    // AppendClause: adds a constraint to the problem, after removing what is already bound.
    method AppendClause(clause: WeightedClause)
      requires Valid() && Positive(clause.terms) && clause.card >= 1 && Unclashing(clause.terms)
      modifies this`model, this`status, this`clauses, this`units, this`problem, clause
      ensures Valid() && problem == old(problem) + [old(clause.Value())]
    {
      hide Exact, Fixes, Coherent, NoSolution, SameSolutions, Unclashing, Reading, Sum;
      ghost var c0 := clause.Value();
      var card := clause.card;
      var minW, maxW := ReadClause(clause);
      problem := problem + [c0];
      if minW >= card {  // the clause holds already
        Already(problem, given, status, model, clauses, units, c0, clause.terms, minW);
      } else if maxW < card {  // the clause cannot hold
        Hopeless(problem, given, status, model, clauses, units, c0, clause.terms, minW);
        status := IsUnsat;
      } else if maxW == card {  // every literal left must be true
        var lits := Lits(clause.terms);
        AllUnits(problem, given, status, model, clauses, units, c0, clause.terms, minW, lits);
        PropagateUnits(lits);
      } else {
        Appends(problem, given, status, model, clauses, units, c0, clause.Value(), minW);
        clauses := clauses + [Constr(clause.terms, clause.card)];
      }
    }

    // The cost of an assignment: the weight of the literals of the cost function that it makes true.
    method CostOf(a: Assignment) returns (cost: int)
      ensures cost == TrueSum(minLits, a)
    {
      cost := 0;
      for i := 0 to |minLits|
        invariant cost == TrueSum(minLits[..i], a)
      {
        Taken(minLits, i, TrueIn(a));
        if Holds(minLits[i].l, a) {
          cost := cost + minLits[i].w;
        }
      }
      assert minLits[..|minLits|] == minLits;
    }

    // Minimize: the least cost of a solution, or -1 if there is none.
    method Minimize() returns (cost: int)
      requires Valid() && Positive(minLits) && Unclashing(minLits)
      modifies this`model, this`status, this`clauses, this`units, this`problem, this`lastModel
      ensures cost == -1 <==> NoSolution(old(problem), given)
      ensures cost != -1 ==> SolvesPb(lastModel, old(problem), given) && TrueSum(minLits, lastModel) == cost
      ensures cost != -1 ==> forall a: Assignment :: SolvesPb(a, old(problem), given) ==> TrueSum(minLits, a) >= cost
    {
      hide Exact, Fixes, Coherent, Unclashing, TrueSum, WeightSum, SolvesPb, SameSolutions;
      ghost var p0 := problem;
      Solve();
      if status == IsUnsat {
        return -1;
      }
      assert SolvesPb(lastModel, p0, given);
      if minLits == [] {
        NoCost(minLits);
        return 0;
      }
      CostRanges(minLits);
      var maxCost := TotalWeight(minLits);
      var hypothesis := SortTerms(Negated(minLits));
      HypothesisShape(minLits, hypothesis);
      cost := 0;
      var best := lastModel;
      ghost var bound: int := maxCost + 1;
      while status == IsSat
        invariant Valid() && status != Indet
        invariant forall a: Assignment :: SolvesPb(a, problem, given) <==> SolvesPb(a, p0, given) && TrueSum(minLits, a) < bound
        invariant status == IsSat ==> SolvesPb(lastModel, problem, given)
        invariant bound <= maxCost ==> bound == cost && SolvesPb(best, p0, given) && TrueSum(minLits, best) == cost
        invariant bound > maxCost ==> status == IsSat
        decreases if status == IsSat then bound else 0, status == IsSat
      {
        best := lastModel;
        cost := CostOf(best);
        if cost == 0 {
          return 0;
        }
        var c := NewPBClause(hypothesis, maxCost - cost + 1);
        var clause := new WeightedClause(c.terms, c.card);
        ghost var before := problem;
        CheaperShape(hypothesis, c);
        AppendClause(clause);
        Cheaper(minLits, hypothesis, c, before, given, cost);
        bound := cost;
        Solve();
      }
      lastModel := best;
    }
  }

  function Lits(ts: seq<Term>): seq<Lit> { seq(|ts|, i requires 0 <= i < |ts| => ts[i].l) }

  lemma UnitAdded(m: Model, cs: seq<Constr>, us: seq<Lit>, u: Lit)
    requires Coherent(us) && Fixes(m, cs, us) && u.v < |m| && !False(m, u)
    ensures Coherent(us + [u]) && Fixes(m[u.v := if u.pos then 1 else -1], cs, us + [u])
  {
    var m', us' := m[u.v := if u.pos then 1 else -1], us + [u];
    assert u.Neg() !in us by {
      assert True(m, u.Neg()) ==> False(m, u);
    }
    forall a: Assignment | SolvesPb(a, cs, us') ensures Follows(a, m') {
      assert u in Elems(us') && forall l :: l in Elems(us) ==> l in Elems(us');
      assert SolvesPb(a, cs, us);
    }
    forall l | l in us' ensures True(m', l) && l.Neg() !in us' {
      assert l in us ==> True(m, l);
      assert l.v == u.v ==> l == u || l == u.Neg();
    }
  }

  // What is left of c0 under the bindings: the terms ts, with minW reached already.
  ghost predicate Reading(m: Model, c0: Constr, ts: seq<Term>, minW: int)
  {
    forall a: Assignment :: Follows(a, m) ==> TrueSum(c0.terms, a) == minW + TrueSum(ts, a)
  }

  // The first i terms left are open, minW is the weight removed as true, and maxW adds what is open so far.
  ghost predicate ReadUpTo(m: Model, c0: Constr, ts: seq<Term>, i: nat, minW: int, maxW: int)
  {
    i <= |ts| && Positive(ts) && Unclashing(ts) && Reading(m, c0, ts, minW) && maxW == minW + WeightSum(ts[..i])
    && forall k :: 0 <= k < i ==> ts[k].l.v < |m| && !False(m, ts[k].l)
  }

  lemma ReadNothing(m: Model, c0: Constr)
    requires Positive(c0.terms) && Unclashing(c0.terms)
    ensures ReadUpTo(m, c0, c0.terms, 0, 0, 0)
  {
  }

  lemma ReadLonger(m: Model, m': Model, c0: Constr, ts: seq<Term>, i: nat, minW: int, maxW: int)
    requires ReadUpTo(m, c0, ts, i, minW, maxW) && |m| <= |m'|
    requires forall l: Lit :: (True(m', l) <==> True(m, l)) && (False(m', l) <==> False(m, l))
    ensures ReadUpTo(m', c0, ts, i, minW, maxW)
  {
    hide Sum, Unclashing;
    forall a: Assignment | Follows(a, m') ensures Follows(a, m) {
      forall v | 0 <= v < |m| && m[v] != 0 ensures a(v) == (m[v] > 0) {
        assert True(m, Lit(v, m[v] > 0));
      }
    }
  }

  lemma ReadTrue(m: Model, c0: Constr, ts: seq<Term>, i: nat, minW: int, maxW: int)
    requires ReadUpTo(m, c0, ts, i, minW, maxW) && i < |ts| && True(m, ts[i].l)
    ensures ts[i].w > 0 && ReadUpTo(m, c0, Removed(ts, i), i, minW + ts[i].w, maxW + ts[i].w)
  {
    RemovedShape(ts, i);
    forall a: Assignment | Follows(a, m) ensures TrueSum(c0.terms, a) == minW + ts[i].w + TrueSum(Removed(ts, i), a) {
      RemovedSum(ts, i, TrueIn(a));
    }
    hide Sum, Unclashing, Removed;
  }

  lemma ReadFalse(m: Model, c0: Constr, ts: seq<Term>, i: nat, minW: int, maxW: int)
    requires ReadUpTo(m, c0, ts, i, minW, maxW) && i < |ts| && False(m, ts[i].l)
    ensures ReadUpTo(m, c0, Removed(ts, i), i, minW, maxW)
  {
    RemovedShape(ts, i);
    forall a: Assignment | Follows(a, m) ensures TrueSum(c0.terms, a) == minW + TrueSum(Removed(ts, i), a) {
      RemovedSum(ts, i, TrueIn(a));
    }
    hide Sum, Unclashing, Removed;
  }

  lemma ReadOpen(m: Model, c0: Constr, ts: seq<Term>, i: nat, minW: int, maxW: int)
    requires ReadUpTo(m, c0, ts, i, minW, maxW) && i < |ts| && ts[i].l.v < |m| && !False(m, ts[i].l)
    ensures ReadUpTo(m, c0, ts, i + 1, minW, maxW + ts[i].w)
  {
    Taken(ts, i, Weights());
    hide Sum, Unclashing, Reading;
  }

  lemma ReadAll(m: Model, c0: Constr, ts: seq<Term>, minW: int, maxW: int)
    requires ReadUpTo(m, c0, ts, |ts|, minW, maxW)
    ensures Positive(ts) && Unclashing(ts) && Reading(m, c0, ts, minW) && maxW == minW + WeightSum(ts)
    ensures forall t :: t in ts ==> t.l.v < |m| && !False(m, t.l)
  {
    assert ts[..|ts|] == ts;
    hide Sum, Unclashing, Reading;
  }

  lemma RemovedShape(ts: seq<Term>, i: nat)
    requires i < |ts| && Positive(ts) && Unclashing(ts)
    ensures ts[i].w > 0 && Positive(Removed(ts, i)) && Unclashing(Removed(ts, i)) && Removed(ts, i)[..i] == ts[..i]
    ensures |Removed(ts, i)| == |ts| - 1 && forall k :: 0 <= k < i ==> Removed(ts, i)[k] == ts[k]
  {
    RemovedElems(ts, i);
    assert ts[i] in ts;
    assert forall k :: 0 <= k < i ==> Removed(ts, i)[k] == ts[k];
  }

  // The problem given so far against what the solver keeps of it.
  ghost predicate Kept(problem: seq<Constr>, given: seq<Lit>, status: Status, cs: seq<Constr>, us: seq<Lit>)
  {
    if status == IsUnsat then NoSolution(problem, given) else SameSolutions(problem, given, cs, us)
  }

  // The four ways of appending c0 to the problem p.
  lemma Already(p: seq<Constr>, given: seq<Lit>, status: Status, m: Model, cs: seq<Constr>, us: seq<Lit>, c0: Constr,
                ts: seq<Term>, minW: int)
    requires p != [] && p[|p| - 1] == c0 && Kept(p[..|p| - 1], given, status, cs, us) && Fixes(m, cs, us)
    requires Reading(m, c0, ts, minW) && Positive(ts) && minW >= c0.card
    ensures Kept(p, given, status, cs, us)
  {
    forall a: Assignment
      ensures SolvesPb(a, p, given) <==> SolvesPb(a, p[..|p| - 1], given) && Met(c0, a)
      ensures SolvesPb(a, cs, us) ==> Met(c0, a)
    {
      assert p == p[..|p| - 1] + [c0];
      MetMore(p[..|p| - 1], c0, a);
      SumNonNegative(ts, TrueIn(a));
    }
  }

  lemma Hopeless(p: seq<Constr>, given: seq<Lit>, status: Status, m: Model, cs: seq<Constr>, us: seq<Lit>, c0: Constr,
                 ts: seq<Term>, minW: int)
    requires p != [] && p[|p| - 1] == c0 && Kept(p[..|p| - 1], given, status, cs, us) && Fixes(m, cs, us)
    requires Reading(m, c0, ts, minW) && Positive(ts) && minW + WeightSum(ts) < c0.card
    ensures NoSolution(p, given)
  {
    forall a: Assignment ensures !SolvesPb(a, p, given) {
      assert SolvesPb(a, p[..|p| - 1], given) ==> SolvesPb(a, cs, us);
      assert p == p[..|p| - 1] + [c0];
      MetMore(p[..|p| - 1], c0, a);
      SumMono(ts, TrueIn(a), Weights());
    }
  }

  lemma AllUnits(p: seq<Constr>, given: seq<Lit>, status: Status, m: Model, cs: seq<Constr>, us: seq<Lit>, c0: Constr,
                 ts: seq<Term>, minW: int, lits: seq<Lit>)
    requires p != [] && p[|p| - 1] == c0 && Kept(p[..|p| - 1], given, status, cs, us) && Fixes(m, cs, us)
    requires Reading(m, c0, ts, minW) && Positive(ts) && Unclashing(ts) && minW + WeightSum(ts) == c0.card && lits == Lits(ts)
    requires forall k :: 0 <= k < |ts| ==> ts[k].l.v < |m| && !False(m, ts[k].l)
    ensures Kept(p, given, status, cs, us + lits)
    ensures forall l :: l in lits ==> l.v < |m| && !False(m, l) && l.Neg() !in lits
  {
    assert forall k :: 0 <= k < |ts| ==> lits[k] == ts[k].l && ts[k] in ts;
    forall a: Assignment
      ensures SolvesPb(a, p, given) <==> SolvesPb(a, p[..|p| - 1], given) && Met(c0, a)
      ensures SolvesPb(a, cs, us + lits) <==> SolvesPb(a, cs, us) && Met(c0, a)
    {
      assert p == p[..|p| - 1] + [c0];
      MetMore(p[..|p| - 1], c0, a);
      assert Elems(us + lits) == Elems(us) + Elems(lits);
      if SolvesPb(a, cs, us) {
        LitsNeeded(ts, a);
      }
    }
  }

  lemma LitsNeeded(ts: seq<Term>, a: Assignment)
    requires Positive(ts)
    ensures TrueSum(ts, a) >= WeightSum(ts) <==> AllHold(Elems(Lits(ts)), a)
  {
    var lits := Lits(ts);
    assert forall k :: 0 <= k < |ts| ==> lits[k] == ts[k].l && lits[k] in Elems(lits);
    if TrueSum(ts, a) >= WeightSum(ts) {
      forall l | l in Elems(lits) ensures Holds(l, a) {
        var k :| 0 <= k < |lits| && lits[k] == l;
        Forced(Constr(ts, WeightSum(ts)), a, k);
      }
    }
    if AllHold(Elems(lits), a) {
      forall t | t in ts ensures TrueIn(a)(t) == Weights()(t) {
        var k :| 0 <= k < |ts| && ts[k] == t;
      }
      SumAgree(ts, TrueIn(a), Weights());
    }
  }

  lemma Appends(p: seq<Constr>, given: seq<Lit>, status: Status, m: Model, cs: seq<Constr>, us: seq<Lit>, c0: Constr,
                c: Constr, minW: int)
    requires p != [] && p[|p| - 1] == c0 && Kept(p[..|p| - 1], given, status, cs, us) && Fixes(m, cs, us)
    requires Reading(m, c0, c.terms, minW) && c.card == c0.card - minW
    ensures Kept(p, given, status, cs + [c], us) && Fixes(m, cs + [c], us)
  {
    forall a: Assignment
      ensures SolvesPb(a, p, given) <==> SolvesPb(a, p[..|p| - 1], given) && Met(c0, a)
      ensures SolvesPb(a, cs + [c], us) <==> SolvesPb(a, cs, us) && Met(c0, a)
    {
      assert p == p[..|p| - 1] + [c0];
      MetMore(p[..|p| - 1], c0, a);
      MetMore(cs, c, a);
    }
  }

  // ----- the cost -----

  lemma HypothesisShape(ts: seq<Term>, hyp: seq<Term>)
    requires Positive(ts) && Unclashing(ts) && multiset(hyp) == multiset(Negated(ts))
    ensures Positive(hyp) && Unclashing(hyp)
    ensures forall a: Assignment :: TrueSum(hyp, a) == WeightSum(ts) - TrueSum(ts, a)
  {
    forall t | t in hyp ensures Term(t.l.Neg(), t.w) in ts {
      assert t in multiset(Negated(ts));
      var i :| 0 <= i < |ts| && Negated(ts)[i] == t;
      assert ts[i] == Term(t.l.Neg(), t.w);
    }
    forall t, u | t in hyp && u in hyp ensures t.l != u.l.Neg() {
      assert Term(t.l.Neg(), t.w) in ts && Term(u.l.Neg(), u.w) in ts;
    }
    forall a: Assignment ensures TrueSum(hyp, a) == WeightSum(ts) - TrueSum(ts, a) {
      NegatedSum(ts, a);
      SumPermuted(hyp, Negated(ts), TrueIn(a));
    }
  }

  lemma CheaperShape(hyp: seq<Term>, c: Constr)
    requires Positive(hyp) && Unclashing(hyp) && multiset(c.terms) == multiset(hyp)
    ensures Positive(c.terms) && Unclashing(c.terms)
  {
    assert forall t :: t in c.terms ==> t in multiset(hyp);
  }

  // The constraint appended after a solution of cost `cost` asks for a strictly cheaper one.
  lemma Cheaper(ts: seq<Term>, hyp: seq<Term>, c: Constr, before: seq<Constr>, given: seq<Lit>, cost: int)
    requires forall a: Assignment :: TrueSum(hyp, a) == WeightSum(ts) - TrueSum(ts, a)
    requires forall a: Assignment :: Met(c, a) <==> Met(Constr(hyp, WeightSum(ts) - cost + 1), a)
    ensures forall a: Assignment :: SolvesPb(a, before + [c], given) <==> SolvesPb(a, before, given) && TrueSum(ts, a) < cost
  {
    forall a: Assignment ensures SolvesPb(a, before + [c], given) <==> SolvesPb(a, before, given) && TrueSum(ts, a) < cost {
      MetMore(before, c, a);
    }
  }

  lemma CostRange(ts: seq<Term>, a: Assignment)
    requires Positive(ts)
    ensures 0 <= TrueSum(ts, a) <= WeightSum(ts)
  {
    SumNonNegative(ts, TrueIn(a));
    SumMono(ts, TrueIn(a), Weights());
  }

  lemma NoCost(ts: seq<Term>)
    requires ts == []
    ensures forall a: Assignment :: TrueSum(ts, a) == 0
  {
  }

  lemma CostRanges(ts: seq<Term>)
    requires Positive(ts)
    ensures forall a: Assignment :: 0 <= TrueSum(ts, a) <= WeightSum(ts)
  {
    forall a: Assignment ensures 0 <= TrueSum(ts, a) <= WeightSum(ts) {
      CostRange(ts, a);
    }
  }
}
