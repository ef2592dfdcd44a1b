// Exactly-one through the translation to clauses: Unique, nnf and asCnf (bf/bf.go) together.
module UniqueCnf {
  import opened BoolFormula
  import opened Cnf
  import opened CnfModels
  import opened Unique

  // A literal, or a conjunction or disjunction of literals.
  predicate Low(f: Formula)
  {
    f.Literal? || ((f.And? || f.Or?) && forall i :: 0 <= i < |f.subs| ==> f.subs[i].Literal?)
  }

  predicate AllLow(fs: seq<Formula>) { forall i :: 0 <= i < |fs| ==> Low(fs[i]) }

  predicate AllLiterals(fs: seq<Formula>) { forall i :: 0 <= i < |fs| ==> fs[i].Literal? }

  // The normal form of every member is in the fragment.
  predicate AllFit(fs: seq<Formula>) { forall i :: 0 <= i < |fs| ==> InFragment(Nnf(fs[i])) }

  lemma {:induction false} ConjunctsFit(ns: seq<Formula>)
    requires forall i :: 0 <= i < |ns| ==> InFragment(ns[i])
    ensures forall i :: 0 <= i < |Conjuncts(ns)| ==> InFragment(Conjuncts(ns)[i])
  {
    if ns != [] {
      ConjunctsFit(ns[1..]);
    }
  }

  lemma {:induction false} DisjunctsLow(ns: seq<Formula>)
    requires AllLow(ns)
    ensures forall i :: 0 <= i < |Disjuncts(ns)| ==> Low(Disjuncts(ns)[i]) && !Disjuncts(ns)[i].Or?
  {
    if ns != [] {
      DisjunctsLow(ns[1..]);
    }
  }

  lemma AndFits(fs: seq<Formula>)
    requires AllFit(fs)
    ensures InFragment(Nnf(And(fs)))
  {
    ConjunctsFit(NnfAll(fs));
  }

  lemma OrFits(fs: seq<Formula>)
    requires AllLow(NnfAll(fs))
    ensures InFragment(Nnf(Or(fs)))
  {
    DisjunctsLow(NnfAll(fs));
  }

  lemma FitJoined(fs: seq<Formula>, gs: seq<Formula>)
    requires AllFit(fs) && AllFit(gs)
    ensures AllFit(fs + gs)
  {
    hide InFragment, Nnf;
    assert forall i :: 0 <= i < |fs + gs| ==> (fs + gs)[i] == if i < |fs| then fs[i] else gs[i - |fs|];
  }

  // A disjunction of variables and its negation in normal form.
  lemma VarsLow(vars: seq<Name>)
    requires vars != []
    ensures AllLow(NnfAll(VarsOf(vars))) && Low(Nnf(Or(VarsOf(vars)))) && Low(Nnf(Not(Or(VarsOf(vars)))))
  {
    var ps, ns := NnfAll(VarsOf(vars)), NnfAll(Negations(VarsOf(vars)));
    NnfNot(VarsOf(vars));
    DisjunctsSame(ps);
    ConjunctsSame(ns);
  }

  lemma NotBothFits(vars: seq<Name>, i: nat, j: nat)
    requires i < |vars| && j < |vars|
    ensures AllFit([NotBoth(vars, i, j)])
  {
    var subs := [Not(Var(vars[i])), Not(Var(vars[j]))];
    assert Nnf(subs[0]) == Literal(vars[i], true) && Nnf(subs[1]) == Literal(vars[j], true);
    assert AllLow(NnfAll(subs));
    OrFits(subs);
  }

  lemma {:induction false} PairsFromFit(vars: seq<Name>, i: nat, j: nat)
    requires i < |vars| && j <= |vars|
    ensures AllFit(PairsFrom(vars, i, j))
    decreases |vars| - j
  {
    hide InFragment, Nnf;
    if j < |vars| {
      PairsFromFit(vars, i, j + 1);
      NotBothFits(vars, i, j);
      FitJoined([NotBoth(vars, i, j)], PairsFrom(vars, i, j + 1));
    }
  }

  lemma {:induction false} PairsFit(vars: seq<Name>, i: nat)
    requires i <= |vars|
    ensures AllFit(Pairs(vars, i))
    decreases |vars| - i
  {
    hide InFragment, Nnf, PairsFrom;
    if i < |vars| {
      PairsFromFit(vars, i, i + 1);
      PairsFit(vars, i + 1);
      FitJoined(PairsFrom(vars, i, i + 1), Pairs(vars, i + 1));
    }
  }

  lemma SmallFits(vars: seq<Name>)
    requires vars != []
    ensures InFragment(Nnf(UniqueSmall(vars)))
  {
    var some := Or(VarsOf(vars));
    VarsLow(vars);
    OrFits(VarsOf(vars));
    PairsFit(vars, 0);
    hide InFragment, Nnf, Pairs;
    FitJoined([some], Pairs(vars, 0));
    AndFits([some] + Pairs(vars, 0));
  }

  lemma IffFits(v: Name, vars: seq<Name>)
    requires vars != []
    ensures InFragment(Nnf(Iff(Var(v), Or(VarsOf(vars)))))
  {
    var f, g := Var(v), Or(VarsOf(vars));
    VarsLow(vars);
    var ps, qs := [Not(f), g], [f, Not(g)];
    assert Nnf(Not(f)) == Literal(v, true) && Nnf(f) == Literal(v, false);
    hide InFragment, Nnf, VarsOf;
    assert NnfAll(ps) == [Literal(v, true), Nnf(g)] && NnfAll(qs) == [Literal(v, false), Nnf(Not(g))];
    OrFits(ps);
    OrFits(qs);
    assert [Or(ps), Or(qs)][0] == Or(ps) && [Or(ps), Or(qs)][1] == Or(qs);
    AndFits([Or(ps), Or(qs)]);
  }

  lemma LinksFit(vars: seq<Name>, f: nat -> nat, heads: seq<Name>)
    requires forall i :: 0 <= i < |heads| ==> Pick(vars, f, i) != []
    ensures AllFit(Links(vars, f, heads))
  {
    hide InFragment, Nnf, Iff, Pick;
    forall i | 0 <= i < |heads| ensures InFragment(Nnf(Links(vars, f, heads)[i])) {
      IffFits(heads[i], Pick(vars, f, i));
    }
  }

  // The grid formula is translated without loss.
  lemma {:induction false} UniqueFits(vars: seq<Name>)
    requires vars != []
    ensures InFragment(Nnf(UniqueRec(vars)))
    decreases |vars|
  {
    hide InFragment, Nnf, Links, UniqueSmall, LineVars, ColVars;
    if |vars| <= 4 {
      SmallFits(vars);
    } else {
      GridFits(|vars|);
      var lines, cols, c := LineVars(vars), ColVars(vars), Cols(|vars|);
      SidesShorter(vars);
      UniqueFits(lines);
      UniqueFits(cols);
      NoneEmpty(vars);
      LinksFit(vars, LineOf(c), lines);
      LinksFit(vars, ColOf(c), cols);
      FitJoined(Links(vars, LineOf(c), lines), Links(vars, ColOf(c), cols));
      FitJoined(Links(vars, LineOf(c), lines) + Links(vars, ColOf(c), cols), [UniqueRec(lines), UniqueRec(cols)]);
      AndFits(Links(vars, LineOf(c), lines) + Links(vars, ColOf(c), cols) + [UniqueRec(lines), UniqueRec(cols)]);
    }
  }

  lemma SidesShorter(vars: seq<Name>)
    requires |vars| > 4
    ensures 0 < |LineVars(vars)| < |vars| && 0 < |ColVars(vars)| < |vars|
  {
    GridFits(|vars|);
  }

  // b gives the user's variables the values of a.
  ghost predicate Shows(t: Table, b: Bits, ids: seq<string>, a: string -> bool)
  {
    forall i :: 0 <= i < |ids| ==> Read(t, b)(Plain(ids[i])) == a(ids[i])
  }

  // Every model of the clauses makes exactly one of the variables true.
  lemma ClausesChoose(ids: seq<string>, b: Bits)
    requires ids != [] && AllClauses(CnfOf(Nnf(UniqueRec(Plains(ids))), map[]).0, b)
    ensures ExactlyOne(Plains(ids), Read(CnfOf(Nnf(UniqueRec(Plains(ids))), map[]).1, b))
  {
    hide Eval, UniqueRec, CnfOf, Nnf, InFragment, Safe, NoConstants, Survives;
    var f := UniqueRec(Plains(ids));
    var m := Read(CnfOf(Nnf(f), map[]).1, b);
    UniqueNoConstants(Plains(ids));
    NoConstantsSafe(f);
    assert Reads(CnfOf(Nnf(f), map[]).1, b, m) && Found(Nnf(f), m);
    ModelsExact(Nnf(f), m);
    SurvivorsHold(Nnf(f), m);
    NnfPreserves(f, m);
    UniqueSound(Plains(ids), m);
  }

  // A choice of one variable is a model of the clauses.
  lemma ChoiceShown(ids: seq<string>, a: string -> bool, j: int)
    requires ids != [] && OnlyId(ids, a, j)
    ensures var (cs, t) := CnfOf(Nnf(UniqueRec(Plains(ids))), map[]);
            exists b: Bits :: AllClauses(cs, b) && Shows(t, b, ids, a)
  {
    hide Eval, UniqueRec, CnfOf, Nnf, InFragment, Safe, NoConstants;
    var f := UniqueRec(Plains(ids));
    var cs, t := CnfOf(Nnf(f), map[]).0, CnfOf(Nnf(f), map[]).1;
    UniqueExact(ids, a);
    var m: Valuation :| Unique.Extends(m, a) && Eval(f, m);
    UniqueNoConstants(Plains(ids));
    NoConstantsSafe(f);
    NnfPreserves(f, m);
    UniqueFits(Plains(ids));
    FragmentSurvives(Nnf(f), m);
    ModelsExact(Nnf(f), m);
    var b: Bits :| AllClauses(cs, b) && Reads(t, b, m);
    ClausesChoose(ids, b);
    ShownBack(t, b, ids, a, m, j);
  }

  // A variable without a number reads as false, and one of them is true.
  lemma ShownBack(t: Table, b: Bits, ids: seq<string>, a: string -> bool, m: Valuation, j: int)
    requires OnlyId(ids, a, j) && Reads(t, b, m) && Unique.Extends(m, a) && ExactlyOne(Plains(ids), Read(t, b))
    ensures Shows(t, b, ids, a)
  {
    var k :| OnlyTrue(Plains(ids), Read(t, b), k);
    assert Plains(ids)[k] == Plain(ids[k]) && m(Plain(ids[k])) == a(ids[k]);
    forall i | 0 <= i < |ids| ensures Read(t, b)(Plain(ids[i])) == a(ids[i]) {
      assert m(Plain(ids[i])) == a(ids[i]) && Plains(ids)[i] == Plain(ids[i]);
    }
  }

  lemma ShownOnly(t: Table, b: Bits, ids: seq<string>, a: string -> bool)
    requires Shows(t, b, ids, a) && ExactlyOne(Plains(ids), Read(t, b))
    ensures exists j :: OnlyId(ids, a, j)
  {
    var j :| OnlyTrue(Plains(ids), Read(t, b), j);
    forall k | 0 <= k < |ids| ensures a(ids[k]) == Read(t, b)(Plains(ids)[k]) {
      assert Plains(ids)[k] == Plain(ids[k]);
    }
    assert OnlyId(ids, a, j);
  }

  // Without variables, two wrong constants make a right one: the formula is turned into "false".
  lemma NoneToChoose()
    ensures forall b: Bits :: !AllClauses(CnfOf(Nnf(UniqueRec([])), map[]).0, b)
  {
    var none: seq<Formula> := [];
    assert VarsOf([]) == none && NnfAll(none) == none && Nnf(Or(none)) == Top;
    assert NnfAll([Or(none)]) == [Top] && Conjuncts([Top]) == none;
    assert UniqueRec([]) == And([Or(none)]) && Nnf(And([Or(none)])) == Bottom;
    assert [] in CnfOf(Bottom, map[]).0;
  }

  // Unique handed to asCnf: the clauses have a model with given values of the user's variables exactly when just one
  // of these is true.
  lemma UniqueTranslated(ids: seq<string>, a: string -> bool)
    ensures var (cs, t) := CnfOf(Nnf(UniqueRec(Plains(ids))), map[]);
            (exists b: Bits :: AllClauses(cs, b) && Shows(t, b, ids, a)) <==> exists j :: OnlyId(ids, a, j)
  {
    hide Eval, UniqueRec, CnfOf, Nnf, OnlyId, Shows, AllClauses;
    var f := UniqueRec(Plains(ids));
    var cs, t := CnfOf(Nnf(f), map[]).0, CnfOf(Nnf(f), map[]).1;
    if ids == [] {
      NoneChosen(a);
    } else {
      forall b: Bits | AllClauses(cs, b) && Shows(t, b, ids, a) ensures exists j :: OnlyId(ids, a, j) {
        ClausesChoose(ids, b);
        ShownOnly(t, b, ids, a);
      }
      if exists j :: OnlyId(ids, a, j) {
        var j :| OnlyId(ids, a, j);
        ChoiceShown(ids, a, j);
      }
    }
  }

  lemma NoneChosen(a: string -> bool)
    ensures forall b: Bits :: !AllClauses(CnfOf(Nnf(UniqueRec(Plains([]))), map[]).0, b)
    ensures forall j :: !OnlyId([], a, j)
  {
    NoneToChoose();
    assert Plains([]) == [];
  }
}
