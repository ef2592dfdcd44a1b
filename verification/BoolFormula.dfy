// Boolean formulas and their negation normal form (bf/bf.go).
module BoolFormula {

  // A variable of the user's, or one made up for a line or a column of a grid of variables. The source makes
  // up strings from the position and the joined names; here the position and the names stay apart.
  datatype Name = Plain(id: string) | Line(i: nat, of: seq<Name>) | Col(i: nat, of: seq<Name>)

  datatype Formula =
    | Top
    | Bottom
    | Var(v: Name)
    | Literal(v: Name, signed: bool)
    | Not(f: Formula)
    | And(subs: seq<Formula>)
    | Or(subs: seq<Formula>)

  type Valuation = Name -> bool

  predicate Eval(f: Formula, m: Valuation)
  {
    match f
    case Top => true
    case Bottom => false
    case Var(v) => m(v)
    case Literal(v, signed) => m(v) != signed
    case Not(g) => !Eval(g, m)
    case And(subs) => forall i :: 0 <= i < |subs| ==> Eval(subs[i], m)
    case Or(subs) => exists i :: 0 <= i < |subs| && Eval(subs[i], m)
  }

  // ----- measures -----

  function Size(f: Formula): nat
  {
    match f
    case Not(g) => 1 + Size(g)
    case And(subs) => 1 + Sizes(subs)
    case Or(subs) => 1 + Sizes(subs)
    case _ => 1
  }

  function Sizes(fs: seq<Formula>): nat { if fs == [] then 0 else Size(fs[0]) + Sizes(fs[1..]) }

  function Nots(f: Formula): nat
  {
    match f
    case Not(g) => 1 + Nots(g)
    case And(subs) => NotsIn(subs)
    case Or(subs) => NotsIn(subs)
    case _ => 0
  }

  function NotsIn(fs: seq<Formula>): nat { if fs == [] then 0 else Nots(fs[0]) + NotsIn(fs[1..]) }

  lemma {:induction false} PartOf(fs: seq<Formula>, i: nat)
    requires i < |fs|
    ensures Size(fs[i]) <= Sizes(fs) && Nots(fs[i]) <= NotsIn(fs)
  {
    if i > 0 {
      assert fs[1..][i - 1] == fs[i];
      PartOf(fs[1..], i - 1);
    }
  }

  // ----- normal forms -----

  // Literals under alternating conjunctions and disjunctions of two members or more.
  predicate Core(f: Formula)
  {
    match f
    case Literal(_, _) => true
    case And(subs) => |subs| >= 2 && forall i :: 0 <= i < |subs| ==> !subs[i].And? && Core(subs[i])
    case Or(subs) => |subs| >= 2 && forall i :: 0 <= i < |subs| ==> !subs[i].Or? && Core(subs[i])
    case _ => false
  }

  predicate Normal(f: Formula) { f.Top? || f.Bottom? || Core(f) }

  lemma {:induction false} CoreHasNoNots(f: Formula)
    requires Normal(f)
    ensures Nots(f) == 0
    decreases f
  {
    if f.And? || f.Or? {
      AllNoNots(f.subs);
    }
  }

  lemma {:induction false} AllNoNots(fs: seq<Formula>)
    requires forall i :: 0 <= i < |fs| ==> Normal(fs[i])
    ensures NotsIn(fs) == 0
    decreases fs
  {
    if fs != [] {
      CoreHasNoNots(fs[0]);
      AllNoNots(fs[1..]);
    }
  }

  // The members of a conjunction, nested conjunctions opened up and true members dropped.
  function Conjuncts(fs: seq<Formula>): seq<Formula>
  {
    if fs == [] then []
    else (match fs[0] case And(subs) => subs case Top => [] case g => [g]) + Conjuncts(fs[1..])
  }

  function Disjuncts(fs: seq<Formula>): seq<Formula>
  {
    if fs == [] then []
    else (match fs[0] case Or(subs) => subs case Bottom => [] case g => [g]) + Disjuncts(fs[1..])
  }

  // What `and` and `or` make of their members in normal form. An empty result turns into the wrong constant.
  function MakeAnd(fs: seq<Formula>): Formula
  {
    if Bottom in fs then Bottom
    else var res := Conjuncts(fs); if |res| == 1 then res[0] else if res == [] then Bottom else And(res)
  }

  function MakeOr(fs: seq<Formula>): Formula
  {
    if Top in fs then Top
    else var res := Disjuncts(fs); if |res| == 1 then res[0] else if res == [] then Top else Or(res)
  }

  lemma {:induction false} ConjunctsCore(fs: seq<Formula>)
    requires Bottom !in fs && forall i :: 0 <= i < |fs| ==> Normal(fs[i])
    ensures forall i :: 0 <= i < |Conjuncts(fs)| ==> Core(Conjuncts(fs)[i]) && !Conjuncts(fs)[i].And?
  {
    if fs != [] {
      ConjunctsCore(fs[1..]);
    }
  }

  lemma {:induction false} DisjunctsCore(fs: seq<Formula>)
    requires Top !in fs && forall i :: 0 <= i < |fs| ==> Normal(fs[i])
    ensures forall i :: 0 <= i < |Disjuncts(fs)| ==> Core(Disjuncts(fs)[i]) && !Disjuncts(fs)[i].Or?
  {
    if fs != [] {
      DisjunctsCore(fs[1..]);
    }
  }

  // nnf. Negated connectives are normalised twice: member by member, then as a whole.
  function Nnf(f: Formula): (r: Formula)
    ensures Normal(r)
    decreases Nots(f), Size(f)
  {
    match f
    case Top => Top
    case Bottom => Bottom
    case Var(v) => Literal(v, false)
    case Literal(_, _) => f
    case And(subs) =>
      var ns := seq(|subs|, i requires 0 <= i < |subs| => PartOf(subs, i); Nnf(subs[i]));
      if Bottom !in ns then ConjunctsCore(ns); MakeAnd(ns) else MakeAnd(ns)
    case Or(subs) =>
      var ns := seq(|subs|, i requires 0 <= i < |subs| => PartOf(subs, i); Nnf(subs[i]));
      if Top !in ns then DisjunctsCore(ns); MakeOr(ns) else MakeOr(ns)
    case Not(g) =>
      match g
      case Top => Bottom
      case Bottom => Top
      case Var(v) => Literal(v, true)
      case Literal(v, signed) => Literal(v, !signed)
      case Not(h) =>
        assert Nots(f) == 1 + Nots(g) == 2 + Nots(h);
        Nnf(h)
      case And(subs) =>
        assert Nots(f) == 1 + Nots(g) == 1 + NotsIn(subs) && Size(f) == 1 + Size(g) == 2 + Sizes(subs);
        var ns := seq(|subs|, i requires 0 <= i < |subs| => PartOf(subs, i); Nnf(Not(subs[i])));
        AllNoNots(ns);
        Nnf(Or(ns))
      case Or(subs) =>
        assert Nots(f) == 1 + Nots(g) == 1 + NotsIn(subs) && Size(f) == 1 + Size(g) == 2 + Sizes(subs);
        var ns := seq(|subs|, i requires 0 <= i < |subs| => PartOf(subs, i); Nnf(Not(subs[i])));
        AllNoNots(ns);
        Nnf(And(ns))
  }

  // ----- what normalisation keeps -----

  lemma {:induction false} ConjunctsSame(fs: seq<Formula>)
    requires forall i :: 0 <= i < |fs| ==> !fs[i].And? && !fs[i].Top?
    ensures Conjuncts(fs) == fs
  {
    if fs != [] {
      ConjunctsSame(fs[1..]);
    }
  }

  lemma {:induction false} DisjunctsSame(fs: seq<Formula>)
    requires forall i :: 0 <= i < |fs| ==> !fs[i].Or? && !fs[i].Bottom?
    ensures Disjuncts(fs) == fs
  {
    if fs != [] {
      DisjunctsSame(fs[1..]);
    }
  }

  lemma {:induction false} NormalFixed(f: Formula)
    requires Normal(f)
    ensures Nnf(f) == f
    decreases f
  {
    if f.And? || f.Or? {
      forall i | 0 <= i < |f.subs| ensures Nnf(f.subs[i]) == f.subs[i] && !f.subs[i].Top? && !f.subs[i].Bottom? {
        assert Core(f.subs[i]);
        NormalFixed(f.subs[i]);
      }
      assert Top !in f.subs && Bottom !in f.subs;
      assert seq(|f.subs|, i requires 0 <= i < |f.subs| => Nnf(f.subs[i])) == f.subs;
      if f.And? {
        ConjunctsSame(f.subs);
      } else {
        DisjunctsSame(f.subs);
      }
    }
  }

  // Normalising again changes nothing, whatever the formula.
  lemma Idempotent(f: Formula)
    ensures Nnf(Nnf(f)) == Nnf(f)
  {
    NormalFixed(Nnf(f));
  }

  // The conjunction does not run out of members.
  predicate AndSafe(ns: seq<Formula>) { Bottom in ns || Conjuncts(ns) != [] }

  predicate OrSafe(ns: seq<Formula>) { Top in ns || Disjuncts(ns) != [] }

  predicate AllTrue(fs: seq<Formula>, m: Valuation) { forall i :: 0 <= i < |fs| ==> Eval(fs[i], m) }

  predicate SomeTrue(fs: seq<Formula>, m: Valuation) { exists i :: 0 <= i < |fs| && Eval(fs[i], m) }

  lemma AllTrueConcat(fs: seq<Formula>, gs: seq<Formula>, m: Valuation)
    ensures AllTrue(fs + gs, m) <==> AllTrue(fs, m) && AllTrue(gs, m)
    ensures SomeTrue(fs + gs, m) <==> SomeTrue(fs, m) || SomeTrue(gs, m)
  {
    hide Eval;
    var hs := fs + gs;
    assert forall i :: 0 <= i < |fs| ==> hs[i] == fs[i];
    assert forall i :: 0 <= i < |gs| ==> hs[|fs| + i] == gs[i];
  }

  lemma {:induction false} ConjunctsEval(ns: seq<Formula>, m: Valuation)
    ensures AllTrue(Conjuncts(ns), m) <==> AllTrue(ns, m)
  {
    if ns != [] {
      var head := match ns[0] case And(subs) => subs case Top => [] case g => [g];
      ConjunctsEval(ns[1..], m);
      AllTrueConcat(head, Conjuncts(ns[1..]), m);
      AllTrueConcat([ns[0]], ns[1..], m);
      assert [ns[0]] + ns[1..] == ns;
      assert AllTrue([ns[0]], m) <==> Eval([ns[0]][0], m);
      assert AllTrue(head, m) <==> Eval(ns[0], m);
    }
  }

  lemma {:induction false} DisjunctsEval(ns: seq<Formula>, m: Valuation)
    ensures SomeTrue(Disjuncts(ns), m) <==> SomeTrue(ns, m)
  {
    if ns != [] {
      var head := match ns[0] case Or(subs) => subs case Bottom => [] case g => [g];
      DisjunctsEval(ns[1..], m);
      AllTrueConcat(head, Disjuncts(ns[1..]), m);
      AllTrueConcat([ns[0]], ns[1..], m);
      assert [ns[0]] + ns[1..] == ns;
      assert SomeTrue([ns[0]], m) <==> Eval([ns[0]][0], m);
      assert SomeTrue(head, m) <==> Eval(ns[0], m);
    }
  }

  // A conjunction is made right exactly when it does not run out of members.
  lemma MakeAndExact(ns: seq<Formula>, m: Valuation)
    ensures (Eval(MakeAnd(ns), m) <==> AllTrue(ns, m)) <==> AndSafe(ns)
  {
    ConjunctsEval(ns, m);
    var res := Conjuncts(ns);
    if Bottom in ns {
      var i :| 0 <= i < |ns| && ns[i] == Bottom;
      assert !Eval(ns[i], m);
    } else {
      assert |res| == 1 ==> (AllTrue(res, m) <==> Eval(res[0], m));
    }
  }

  lemma MakeOrExact(ns: seq<Formula>, m: Valuation)
    ensures (Eval(MakeOr(ns), m) <==> SomeTrue(ns, m)) <==> OrSafe(ns)
  {
    DisjunctsEval(ns, m);
    var res := Disjuncts(ns);
    if Top in ns {
      var i :| 0 <= i < |ns| && ns[i] == Top;
      assert Eval(ns[i], m);
    } else {
      assert |res| == 1 ==> (SomeTrue(res, m) <==> Eval(res[0], m));
    }
  }

  function NnfAll(fs: seq<Formula>): seq<Formula> { seq(|fs|, i requires 0 <= i < |fs| => Nnf(fs[i])) }

  function Negations(fs: seq<Formula>): seq<Formula> { seq(|fs|, i requires 0 <= i < |fs| => Not(fs[i])) }

  // No connective runs out of members while f is normalised.
  predicate Safe(f: Formula)
    decreases Nots(f), Size(f)
  {
    match f
    case And(subs) => (forall i :: 0 <= i < |subs| ==> (PartOf(subs, i); Safe(subs[i]))) && AndSafe(NnfAll(subs))
    case Or(subs) => (forall i :: 0 <= i < |subs| ==> (PartOf(subs, i); Safe(subs[i]))) && OrSafe(NnfAll(subs))
    case Not(g) =>
      (match g
       case Not(h) =>
         assert Nots(f) == 1 + Nots(g) == 2 + Nots(h);
         Safe(h)
       case And(subs) =>
         assert Nots(f) == 1 + Nots(g) == 1 + NotsIn(subs) && Size(f) == 1 + Size(g) == 2 + Sizes(subs);
         (forall i :: 0 <= i < |subs| ==> (PartOf(subs, i); Safe(Not(subs[i])))) && OrSafe(NnfAll(Negations(subs)))
       case Or(subs) =>
         assert Nots(f) == 1 + Nots(g) == 1 + NotsIn(subs) && Size(f) == 1 + Size(g) == 2 + Sizes(subs);
         (forall i :: 0 <= i < |subs| ==> (PartOf(subs, i); Safe(Not(subs[i])))) && AndSafe(NnfAll(Negations(subs)))
       case _ => true)
    case _ => true
  }

  lemma NnfNot(subs: seq<Formula>)
    ensures Nnf(Not(And(subs))) == MakeOr(NnfAll(Negations(subs))) && Nnf(Not(Or(subs))) == MakeAnd(NnfAll(Negations(subs)))
  {
    var ns := NnfAll(Negations(subs));
    assert seq(|subs|, i requires 0 <= i < |subs| => Nnf(Not(subs[i]))) == ns;
    forall i | 0 <= i < |ns| ensures Nnf(ns[i]) == ns[i] {
      NormalFixed(ns[i]);
    }
    assert NnfAll(ns) == ns;
  }

  // Normalisation keeps the value of a formula under every valuation, as long as no connective runs out of
  // members.
  lemma {:induction false} NnfPreserves(f: Formula, m: Valuation)
    requires Safe(f)
    ensures Eval(Nnf(f), m) <==> Eval(f, m)
    decreases Nots(f), Size(f)
  {
    match f
    case And(subs) =>
      MembersPreserved(subs, m, f);
      MakeAndExact(NnfAll(subs), m);
    case Or(subs) =>
      MembersPreserved(subs, m, f);
      MakeOrExact(NnfAll(subs), m);
    case Not(Not(h)) =>
      assert Nots(f) == 2 + Nots(h);
      NnfPreserves(h, m);
    case Not(And(subs)) =>
      NnfNot(subs);
      MembersNegated(subs, m, f);
      MakeOrExact(NnfAll(Negations(subs)), m);
    case Not(Or(subs)) =>
      NnfNot(subs);
      MembersNegated(subs, m, f);
      MakeAndExact(NnfAll(Negations(subs)), m);
    case _ =>
  }

  lemma {:induction false} MembersPreserved(subs: seq<Formula>, m: Valuation, f: Formula)
    requires (f == And(subs) || f == Or(subs)) && Safe(f)
    ensures forall i :: 0 <= i < |subs| ==> (Eval(NnfAll(subs)[i], m) <==> Eval(subs[i], m))
    decreases Nots(f), Size(f), 0
  {
    forall i | 0 <= i < |subs| ensures Eval(Nnf(subs[i]), m) <==> Eval(subs[i], m) {
      PartOf(subs, i);
      NnfPreserves(subs[i], m);
    }
  }

  lemma {:induction false} MembersNegated(subs: seq<Formula>, m: Valuation, f: Formula)
    requires (f == Not(And(subs)) || f == Not(Or(subs))) && Safe(f)
    ensures forall i :: 0 <= i < |subs| ==> (Eval(NnfAll(Negations(subs))[i], m) <==> !Eval(subs[i], m))
    decreases Nots(f), Size(f), 0
  {
    assert Nots(f) == 1 + Nots(f.f) == 1 + NotsIn(subs) && Size(f) == 1 + Size(f.f) == 2 + Sizes(subs);
    forall i | 0 <= i < |subs| ensures Eval(Nnf(Not(subs[i])), m) <==> !Eval(subs[i], m) {
      PartOf(subs, i);
      NnfPreserves(Not(subs[i]), m);
    }
  }

  // No constants, no connective without members.
  predicate NoConstants(f: Formula)
  {
    match f
    case Top => false
    case Bottom => false
    case Var(_) => true
    case Literal(_, _) => true
    case Not(g) => NoConstants(g)
    case And(subs) => subs != [] && forall i :: 0 <= i < |subs| ==> NoConstants(subs[i])
    case Or(subs) => subs != [] && forall i :: 0 <= i < |subs| ==> NoConstants(subs[i])
  }

  lemma {:induction false} ConjunctsLeft(ns: seq<Formula>)
    requires ns != [] && forall i :: 0 <= i < |ns| ==> Core(ns[i])
    ensures AndSafe(ns) && OrSafe(ns) && Core(MakeAnd(ns)) && Core(MakeOr(ns))
  {
    assert Core(ns[0]);
    assert Top !in ns && Bottom !in ns;
    ConjunctsCore(ns);
    DisjunctsCore(ns);
  }

  // Without constants and empty connectives nothing runs out, and no constant comes out.
  lemma {:induction false} NoConstantsSafe(f: Formula)
    requires NoConstants(f)
    ensures Safe(f) && Core(Nnf(f))
    decreases Nots(f), Size(f)
  {
    match f
    case And(subs) =>
      forall i | 0 <= i < |subs| ensures Safe(subs[i]) && Core(NnfAll(subs)[i]) {
        PartOf(subs, i);
        NoConstantsSafe(subs[i]);
      }
      ConjunctsLeft(NnfAll(subs));
    case Or(subs) =>
      forall i | 0 <= i < |subs| ensures Safe(subs[i]) && Core(NnfAll(subs)[i]) {
        PartOf(subs, i);
        NoConstantsSafe(subs[i]);
      }
      ConjunctsLeft(NnfAll(subs));
    case Not(g) =>
      if g.Not? {
        assert Nots(f) == 2 + Nots(g.f);
        NoConstantsSafe(g.f);
      } else if g.And? || g.Or? {
        assert Nots(f) == 1 + Nots(g) == 1 + NotsIn(g.subs) && Size(f) == 1 + Size(g) == 2 + Sizes(g.subs);
        NnfNot(g.subs);
        forall i | 0 <= i < |g.subs| ensures Safe(Not(g.subs[i])) && Core(NnfAll(Negations(g.subs))[i]) {
          PartOf(g.subs, i);
          NoConstantsSafe(Not(g.subs[i]));
        }
        ConjunctsLeft(NnfAll(Negations(g.subs)));
      }
    case _ =>
  }

  // A conjunction of true constants is turned into "false", and a disjunction of false ones into "true".
  lemma EmptiedConnectives(m: Valuation)
    ensures Eval(And([Top]), m) && !Eval(Nnf(And([Top])), m)
    ensures !Eval(Or([Bottom]), m) && Eval(Nnf(Or([Bottom])), m)
  {
    assert NnfAll([Top]) == [Top] && NnfAll([Bottom]) == [Bottom];
    assert Conjuncts([Top]) == [] && Disjuncts([Bottom]) == [];
  }
}
