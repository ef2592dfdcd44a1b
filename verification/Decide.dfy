// From a list of clauses to a verdict: loading and simplification, then the search.
module Decide {
  import opened Logic
  import opened Bindings
  import opened Certificate
  import S = Solver
  import P = Simplify

  lemma FormulaModels(a: Assignment, cs: seq<Clause>, units: seq<Lit>)
    ensures P.Solves(a, cs, units) <==> Models(a, Bags(Formula(cs, units)))
  {
    var f := Formula(cs, units);
    if P.Solves(a, cs, units) {
      forall b | b in Bags(f) ensures Sat(b, a) {
        var c :| c in f && b == multiset(c);
        if c !in cs {
          var i :| 0 <= i < |units| && c == [units[i]];
          assert units[i] in Elems(units);
        }
      }
    }
    if Models(a, Bags(f)) {
      forall c | c in cs ensures Sat(multiset(c), a) {
        assert multiset(c) in Bags(f) by {
          assert c in f;
        }
      }
      forall u | u in Elems(units) ensures Holds(u, a) {
        var i :| 0 <= i < |units| && units[i] == u;
        BagsOf(f, |cs| + i);
        assert f[|cs| + i] == [u];
      }
    }
  }

  lemma MeetsModels(a: Assignment, cnf: seq<Clause>)
    ensures P.Solves(a, cnf, []) <==> Models(a, Bags(cnf))
  {
    FormulaModels(a, cnf, []);
    assert Formula(cnf, []) == cnf;
  }

  // Decides a clause set: always with an answer, with a model exactly when there is one.
  method Decide(nbVars: nat, cnf: seq<Clause>, activity: seq<real>) returns (status: Status, model: Model)
    requires (forall c :: c in cnf ==> P.InRange(c, nbVars)) && |activity| == nbVars
    ensures status == if Unsatisfiable(Bags(cnf)) then IsUnsat else IsSat
    ensures status == IsSat ==> |model| == nbVars && (forall v :: 0 <= v < nbVars ==> model[v] != 0)
    ensures status == IsSat ==> Models(AssignmentOf(model), Bags(cnf))
  {
    hide Bags, Models, Formula, AssignmentOf, P.Solves, P.InRange, P.Clean;
    var problem := new P.Problem(nbVars, cnf);
    if problem.status == IsUnsat {
      forall a: Assignment ensures !Models(a, Bags(cnf)) {
        MeetsModels(a, cnf);
      }
      return IsUnsat, [];
    }
    var cs, units := problem.clauses, problem.units;
    var solver := new S.Solver(nbVars, cs, units, activity);
    status := solver.Solve();
    model := solver.model;
    if status == IsSat {
      FormulaModels(AssignmentOf(model), cs, units);
      MeetsModels(AssignmentOf(model), cnf);
    } else {
      forall a: Assignment ensures !Models(a, Bags(cnf)) {
        FormulaModels(a, cs, units);
        MeetsModels(a, cnf);
      }
    }
  }
}
