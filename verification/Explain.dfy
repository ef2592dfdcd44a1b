// The solver and the certificate checker together: explain/check.go:117-148. The solver works on the simplified
// problem, the checker on the clauses as they were given. The clauses the solver writes while it searches are
// accepted there too, unless a clause given repeats a literal.
module Explain {
  import opened Logic
  import opened UnitProp
  import C = Checker
  import opened Bindings
  import opened Certificate
  import opened Learn
  import D = Decide
  import P = Simplify
  import S = Solver

  // The checker's bindings for the unit clauses of a problem: explain/parser.go:91-106.
  method ReadUnits(nbVars: nat, cnf: seq<Clause>) returns (units: C.Units)
    requires forall c :: c in cnf ==> P.InRange(c, nbVars)
    ensures |units| == nbVars && C.WellFormed(units) && C.UnitsFromClauses(cnf, |cnf|, units)
  {
    units := seq(nbVars, _ => 0);
    for i := 0 to |cnf|
      invariant |units| == nbVars && C.WellFormed(units) && C.UnitsFromClauses(cnf, i, units)
    {
      assert cnf[..i + 1] == cnf[..i] + [cnf[i]] && cnf[i] in cnf;
      if |cnf[i]| == 1 {
        var lit := cnf[i][0];
        assert cnf[i] == [lit];
        units := units[lit.v := if lit.pos then 1 else -1];
      }
    }
  }

  lemma {:induction false} AssumedBindings(units: C.Units, c: Clause)
    requires C.InRange(c, |units|) && DistinctVars(c)
    ensures forall i :: 0 <= i < |c| ==> C.Assume(units, c)[c[i].v] == if c[i].pos then -1 else 1
  {
    if c != [] {
      var n := |c| - 1;
      AssumedBindings(units, c[..n]);
      forall i | 0 <= i < |c| ensures C.Assume(units, c)[c[i].v] == if c[i].pos then -1 else 1 {
        if i < n {
          assert c[..n][i] == c[i] && c[i].v != c[n].v;
        }
      }
    }
  }

  // Assuming the negation of a clause over distinct variables binds every negated literal.
  lemma AssumeNegations(units: C.Units, c: Clause)
    requires C.InRange(c, |units|) && DistinctVars(c)
    ensures Negations(multiset(c)) <= C.UnitSet(C.Assume(units, c))
  {
    AssumedBindings(units, c);
    var bound := C.Assume(units, c);
    hide C.Assume, DistinctVars;
    forall n | n in Negations(multiset(c)) ensures n in C.UnitSet(bound) {
      var k :| k in c && n == k.Neg();
      var i :| 0 <= i < |c| && c[i] == k;
      assert n == Lit(k.v, bound[k.v] > 0);
    }
  }

  // ----- from the simplified problem to the clauses given -----

  // What simplification makes of cnf: units that unit propagation gives, and what they leave of the clauses.
  ghost predicate Simplified(cnf: seq<Clause>, cs: seq<Clause>, units: seq<Lit>)
  {
    P.UnitsForced(cnf, units, 0) && P.AllLeft(cnf, cs, units) && forall c :: c in cs ==> !P.Tautological(c)
  }

  // The checker counts a literal as often as it occurs, the solver once. That matters unless the clause holds anyway.
  ghost predicate Harmless(c: Clause) { Repeats(c) ==> P.Tautological(c) }

  ghost predicate AllHarmless(cnf: seq<Clause>) { forall c :: c in cnf ==> Harmless(c) }

  // Every clause of the simplified problem, units included, comes from a clause without repetitions.
  lemma Origin(cnf: seq<Clause>, cs: seq<Clause>, units: seq<Lit>, c: Clause) returns (d: Clause)
    requires Simplified(cnf, cs, units) && AllHarmless(cnf) && c in Formula(cs, units)
    ensures d in cnf && !Repeats(d) && P.LeftOf(d, c, units)
  {
    if c in cs {
      assert P.LeftIn(cnf, c, units);
      d :| d in cnf && P.LeftOf(d, c, units) && (P.Tautological(d) ==> c == d);
    } else {
      var i :| 0 <= i < |units| && c == [units[i]];
      assert P.ForcedAt(cnf, units, i);
      d :| d in cnf && !P.Tautological(d) && Forces(d, units[..i], units[i]);
      assert forall l :: l in units[..i] ==> l in units;
    }
    assert Harmless(d);
  }

  // Once the units are bound, a clause acts as what simplification left of it.
  lemma OriginActs(d: Clause, c: Clause, units: seq<Lit>, t: set<Lit>)
    requires P.LeftOf(d, c, units) && !Repeats(d) && Elems(units) <= t
    ensures forall u :: UnitStep(multiset(c), t, u) ==> UnitStep(multiset(d), t, u)
    ensures Falsified(multiset(c), t) ==> Falsified(multiset(d), t)
  {
    forall l | l in d && l !in c ensures l.Neg() in t {
      assert l.Neg() in Elems(units);
    }
    forall u | UnitStep(multiset(c), t, u) ensures UnitStep(multiset(d), t, u) {
      DistinctOnce(d, u);
      assert u in c && u in d;
      forall l | l in multiset(d) - multiset{u} ensures l.Neg() in t {
        assert l != u && l in d;
        assert l in c ==> l in multiset(c) - multiset{u};
      }
    }
  }

  lemma ForcedStep(cnf: seq<Clause>, units: seq<Lit>, i: nat, t: set<Lit>)
    requires P.UnitsForced(cnf, units, 0) && AllHarmless(cnf) && i < |units| && Elems(units[..i]) <= t
    ensures exists c :: c in Bags(cnf) && UnitStep(c, t, units[i])
  {
    var u := units[i];
    assert P.ForcedAt(cnf, units, i);
    var d :| d in cnf && !P.Tautological(d) && Forces(d, units[..i], u);
    assert Harmless(d);
    DistinctOnce(d, u);
    forall l | l in multiset(d) - multiset{u} ensures l.Neg() in t {
      assert l != u && l in d;
      assert l.Neg() in Elems(units[..i]);
    }
    assert multiset(d) in Bags(cnf);
  }

  lemma GivenActs(cnf: seq<Clause>, cs: seq<Clause>, units: seq<Lit>, learned: set<Bag>, t: set<Lit>, c: Bag)
    requires Simplified(cnf, cs, units) && AllHarmless(cnf) && Elems(units) <= t
    requires c in Bags(Formula(cs, units)) + learned
    ensures exists c' :: c' in Bags(cnf) + learned && (forall u :: UnitStep(c, t, u) ==> UnitStep(c', t, u))
                         && (Falsified(c, t) ==> Falsified(c', t))
  {
    if c in learned {
      assert c in Bags(cnf) + learned;
    } else {
      var k :| k in Formula(cs, units) && c == multiset(k);
      var d := Origin(cnf, cs, units, k);
      OriginActs(d, k, units, t);
      assert multiset(d) in Bags(cnf);
    }
  }

  lemma GivenStep(cnf: seq<Clause>, cs: seq<Clause>, units: seq<Lit>, learned: set<Bag>, s: set<Lit>, steps: seq<Lit>, j: nat)
    requires Simplified(cnf, cs, units) && AllHarmless(cnf) && j < |steps|
    requires StepAt(Bags(Formula(cs, units)) + learned, s, steps, j)
    ensures StepAt(Bags(cnf) + learned, s, units + steps, |units| + j)
  {
    var given, t := Bags(Formula(cs, units)) + learned, s + Elems(units + steps[..j]);
    assert (units + steps)[..|units| + j] == units + steps[..j];
    var c :| c in given && UnitStep(c, s + Elems(steps[..j]), steps[j]);
    hide Simplified, AllHarmless, Bags, Formula;
    UnitStepMono(c, s + Elems(steps[..j]), t, steps[j]);
    GivenActs(cnf, cs, units, learned, t, c);
  }

  lemma GivenDerives(cnf: seq<Clause>, cs: seq<Clause>, units: seq<Lit>, learned: set<Bag>, s: set<Lit>, steps: seq<Lit>)
    requires Simplified(cnf, cs, units) && AllHarmless(cnf) && Derives(Bags(Formula(cs, units)) + learned, s, steps)
    ensures Derives(Bags(cnf) + learned, s, units + steps)
  {
    var given, f, all := Bags(Formula(cs, units)) + learned, Bags(cnf) + learned, units + steps;
    assert P.UnitsForced(cnf, units, 0);
    hide Bags, Formula, Simplified, AllHarmless, P.UnitsForced, StepAt;
    forall i | 0 <= i < |all| ensures StepAt(f, s, all, i) {
      if i < |units| {
        assert all[..i] == units[..i];
        ForcedStep(cnf, units, i, s + Elems(all[..i]));
        StepFrom(f, s, all, i);
      } else {
        assert StepAt(given, s, steps, i - |units|);
        GivenStep(cnf, cs, units, learned, s, steps, i - |units|);
      }
    }
  }

  // A refutation from the simplified problem, with the units derived first, is one from the clauses given.
  lemma GivenRefutes(cnf: seq<Clause>, cs: seq<Clause>, units: seq<Lit>, learned: set<Bag>, s: set<Lit>)
    requires Simplified(cnf, cs, units) && AllHarmless(cnf) && Conflicting(Bags(Formula(cs, units)) + learned, s)
    ensures Conflicting(Bags(cnf) + learned, s)
  {
    hide Bags, Formula, Simplified, AllHarmless, Derives;
    var given := Bags(Formula(cs, units)) + learned;
    var steps :| Refutes(given, s, steps);
    GivenDerives(cnf, cs, units, learned, s, steps);
    var c :| c in given && Falsified(c, s + Elems(steps));
    var t := s + Elems(units + steps);
    assert Falsified(c, t);
    GivenActs(cnf, cs, units, learned, t, c);
    assert Refutes(Bags(cnf) + learned, s, units + steps);
  }

  lemma StepFrom(f: set<Bag>, s: set<Lit>, steps: seq<Lit>, i: nat)
    requires i < |steps| && exists c :: c in f && UnitStep(c, s + Elems(steps[..i]), steps[i])
    ensures StepAt(f, s, steps, i)
  {
  }

  lemma BagsConcat(a: seq<Clause>, b: seq<Clause>)
    ensures Bags(a + b) == Bags(a) + Bags(b)
  {
    assert forall c :: c in a + b <==> c in a || c in b;
  }

  // The checker accepts, on the clauses given, every clause of a certificate written for the simplified problem.
  lemma CertAccepted(cnf: seq<Clause>, cs: seq<Clause>, units: seq<Lit>, bindings: C.Units, cert: seq<Clause>)
    requires Simplified(cnf, cs, units) && AllHarmless(cnf)
    requires CertOk(Formula(cs, units), cert) && CertShape(cert, |bindings|)
    ensures C.Accepts(cnf, bindings, cert)
  {
    hide Simplified, AllHarmless, Formula, Bags, Conflicting;
    forall k | 0 <= k < |cert| ensures C.AcceptsAt(cnf, bindings, cert, k) {
      assert CertAt(Formula(cs, units), cert, k) && ShapeOk(cert[k], |bindings|);
      BagsConcat(Formula(cs, units), cert[..k]);
      BagsConcat(cnf, cert[..k]);
      var s := Negations(multiset(cert[k]));
      GivenRefutes(cnf, cs, units, Bags(cert[..k]), s);
      AssumeNegations(bindings, cert[k]);
      ConflictingMono(Bags(cnf + cert[..k]), Bags(cnf + cert[..k]), s, C.UnitSet(C.Assume(bindings, cert[k])));
    }
  }

  lemma {:induction false} UpToEmptyIsPrefix(cert: seq<Clause>)
    ensures C.UpToEmpty(cert) <= cert
  {
    if cert != [] && cert[0] != [] {
      UpToEmptyIsPrefix(cert[1..]);
      assert cert == [cert[0]] + cert[1..];
    }
  }

  lemma AcceptsPrefix(formula: seq<Clause>, units: C.Units, cert: seq<Clause>, p: seq<Clause>)
    requires C.Accepts(formula, units, cert) && p <= cert
    ensures C.Accepts(formula, units, p)
  {
    forall k | 0 <= k < |p| ensures C.AcceptsAt(formula, units, p, k) {
      assert C.AcceptsAt(formula, units, cert, k);
      assert p[..k] == cert[..k];
    }
  }

  // ----- a clause that repeats a literal -----

  // The other literals of d, negated.
  ghost function Others(d: Clause, l: Lit): seq<Lit>
  {
    if d == [] then [] else var n := |d| - 1; Others(d[..n], l) + if d[n] == l then [] else [d[n].Neg()]
  }

  lemma {:induction false} OthersAre(d: Clause, l: Lit)
    ensures forall u :: u in Others(d, l) <==> u.Neg() in d && u.Neg() != l
  {
    if d != [] {
      var n := |d| - 1;
      OthersAre(d[..n], l);
      assert d == d[..n] + [d[n]];
    }
  }

  // All four clauses over x and y, and the same behind the guard g.
  function AllFour(x: nat, y: nat): seq<Clause>
  {
    [[Lit(x, true), Lit(y, true)], [Lit(x, true), Lit(y, false)], [Lit(x, false), Lit(y, true)], [Lit(x, false), Lit(y, false)]]
  }

  function Guarded(g: Lit, cs: seq<Clause>): seq<Clause> { seq(|cs|, i requires 0 <= i < |cs| => [g] + cs[i]) }

  // d, which repeats l, with its other literals refuted and, once l holds, a contradiction over x and y.
  ghost function Trap(d: Clause, l: Lit, x: nat, y: nat): seq<Clause>
  {
    [d] + UnitClauses(Others(d, l)) + Guarded(l.Neg(), AllFour(x, y))
  }

  // What simplification leaves of it.
  ghost function TrapUnits(d: Clause, l: Lit): seq<Lit> { Others(d, l) + [l] }

  lemma TrapSimplified(d: Clause, l: Lit, x: nat, y: nat)
    requires l in d && !P.Tautological(d) && x != y && l.v != x && l.v != y
    ensures Simplified(Trap(d, l, x, y), AllFour(x, y), TrapUnits(d, l))
  {
    var cnf, cs, units, others := Trap(d, l, x, y), AllFour(x, y), TrapUnits(d, l), Others(d, l);
    OthersAre(d, l);
    forall i | 0 <= i < |units| ensures P.ForcedAt(cnf, units, i) {
      if i < |others| {
        var c := [units[i]];
        assert cnf[1 + i] == c;
        assert c in cnf && !P.Tautological(c) && units[i] in c;
      } else {
        assert units[..i] == others && cnf[0] == d;
        assert forall k :: k in d && k != l ==> k.Neg() in others;
      }
    }
    forall c | c in cs ensures P.LeftIn(cnf, c, units) && !P.Tautological(c) {
      var i :| 0 <= i < |cs| && cs[i] == c;
      var g := [l.Neg()] + c;
      assert cnf[1 + |others| + i] == g;
      assert units[|others|] == l;
      assert g in cnf && P.LeftOf(g, c, units) && !P.Tautological(g);
    }
  }

  // Two clauses refute the literal left free: a step, then a falsified clause.
  lemma StepThenFalse(f: set<Bag>, s: set<Lit>, c: Bag, u: Lit, e: Bag)
    requires c in f && e in f && UnitStep(c, s, u) && Falsified(e, s + {u})
    ensures Conflicting(f, s)
  {
    var steps := [u];
    assert steps[..0] == [] && Elems(steps) == {u};
    assert StepAt(f, s, steps, 0);
    assert Refutes(f, s, steps);
  }

  // All four clauses over x and y refute the negation of x.
  lemma FourRefute(f: set<Bag>, x: nat, y: nat)
    requires x != y && forall i :: 0 <= i < 4 ==> multiset(AllFour(x, y)[i]) in f
    ensures Rup(f, multiset{Lit(x, true)})
  {
    var px, nx, py, ny := Lit(x, true), Lit(x, false), Lit(y, true), Lit(y, false);
    FourBags(x, y);
    assert Negations(multiset{px}) == {nx};
    StepThenFalse(f, {nx}, multiset{px, py}, py, multiset{px, ny});
  }

  // Together with x they refute everything.
  lemma FiveRefute(f: set<Bag>, x: nat, y: nat)
    requires x != y && multiset{Lit(x, true)} in f && forall i :: 0 <= i < 4 ==> multiset(AllFour(x, y)[i]) in f
    ensures Rup(f, multiset{})
  {
    var px, nx, py, ny := Lit(x, true), Lit(x, false), Lit(y, true), Lit(y, false);
    FourBags(x, y);
    var none: seq<Lit> := [];
    DerivesSnoc(f, {}, none, multiset{px}, px);
    assert none + [px] == [px] && {} + Elems([px]) == {px};
    DerivesSnoc(f, {}, [px], multiset{nx, py}, py);
    assert Falsified(multiset{nx, ny}, {} + Elems([px] + [py]));
    assert Negations(multiset{}) == {};
    assert Refutes(f, {}, [px] + [py]);
  }

  // The simplified problem has a certificate: x, and then the empty clause.
  lemma TrapCertified(cs: seq<Clause>, units: seq<Lit>, x: nat, y: nat)
    requires x != y && cs == AllFour(x, y)
    ensures CertOk(Formula(cs, units), [[Lit(x, true)], []])
  {
    var f, unit: Clause, cert: seq<Clause> := Formula(cs, units), [Lit(x, true)], [[Lit(x, true)], []];
    assert forall i :: 0 <= i < 4 ==> f[i] == cs[i];
    assert cert[..0] == [] && cert[..1] == [unit] && multiset(unit) == multiset{Lit(x, true)};
    hide Rup, AllFour;
    forall k | 0 <= k < |cert| ensures CertAt(f, cert, k) {
      var g := f + cert[..k];
      forall i | 0 <= i < 4 ensures multiset(cs[i]) in Bags(g) {
        assert g[i] == cs[i];
        BagsOf(g, i);
      }
      if k == 0 {
        FourRefute(Bags(g), x, y);
      } else {
        assert g[|f|] == unit;
        BagsOf(g, |f|);
        FiveRefute(Bags(g), x, y);
      }
    }
  }

  lemma FourBags(x: nat, y: nat)
    ensures var px, nx, py, ny := Lit(x, true), Lit(x, false), Lit(y, true), Lit(y, false);
            var cs := AllFour(x, y);
            && multiset(cs[0]) == multiset{px, py} && multiset(cs[1]) == multiset{px, ny}
            && multiset(cs[2]) == multiset{nx, py} && multiset(cs[3]) == multiset{nx, ny}
  {
  }

  // The bindings that remain with x refuted.
  ghost function TrapBound(d: Clause, l: Lit, x: nat): set<Lit> { Elems(Others(d, l)) + {Lit(x, false)} }

  lemma TrapConsistent(d: Clause, l: Lit, x: nat, y: nat)
    requires l in d && !P.Tautological(d) && x != y && x !in Vars(d) && y !in Vars(d)
    ensures var t := TrapBound(d, l, x); Consistent(t) && Free(l, t) && forall u :: u in t ==> u.v != y
  {
    OthersAre(d, l);
    forall u | u in Others(d, l) ensures u.v in Vars(d) && u.Neg() in d && u != l && u.Neg() != l {
      assert u.Neg().v in Vars(d);
    }
    forall u | u in TrapBound(d, l, x) ensures u.Neg() !in TrapBound(d, l, x) {
      assert u.Neg() in Others(d, l) ==> u.Neg().Neg() in d && u.Neg().Neg() == u;
    }
    assert l.v in Vars(d);
  }

  // With x refuted, nothing more follows from the clauses given: the clause that repeats l counts it twice.
  lemma TrapSettled(d: Clause, l: Lit, x: nat, y: nat)
    requires Repeated(d, l) && !P.Tautological(d) && x != y && x !in Vars(d) && y !in Vars(d)
    ensures Consistent(TrapBound(d, l, x)) && Stable(Bags(Trap(d, l, x, y)), TrapBound(d, l, x))
  {
    hide Trap, TrapBound, Settled, Consistent, Free, P.Tautological, Vars;
    var cnf, t := Trap(d, l, x, y), TrapBound(d, l, x);
    TrapConsistent(d, l, x, y);
    forall b | b in Bags(cnf) ensures Settled(b, t) {
      var c :| c in cnf && b == multiset(c);
      var k :| 0 <= k < |cnf| && cnf[k] == c;
      TrapAt(d, l, x, y, k);
    }
  }

  lemma TrapAt(d: Clause, l: Lit, x: nat, y: nat, k: nat)
    requires Repeated(d, l) && !P.Tautological(d) && x != y && x !in Vars(d) && y !in Vars(d) && k < |Trap(d, l, x, y)|
    ensures Settled(multiset(Trap(d, l, x, y)[k]), TrapBound(d, l, x))
  {
    var cnf, others, t := Trap(d, l, x, y), Others(d, l), TrapBound(d, l, x);
    TrapConsistent(d, l, x, y);
    RepeatedBag(d, l);
    assert l.v in Vars(d);
    hide AllFour, Guarded, Settled, Consistent, Free, Repeated, P.Tautological, Others, Vars;
    if k == 0 {
      TwiceFree(d, l, t);
    } else if k <= |others| {
      assert cnf[k] == [others[k - 1]];
      TrueUnit(others[k - 1], t);
    } else {
      TrapGuarded(l, x, y, k - 1 - |others|, t);
    }
  }

  lemma TwiceFree(d: Clause, l: Lit, t: set<Lit>)
    requires l in multiset(d) - multiset{l} && Free(l, t)
    ensures Settled(multiset(d), t)
  {
  }

  lemma TrueUnit(u: Lit, t: set<Lit>)
    requires u in t
    ensures Settled(multiset([u]), t)
  {
    assert u in multiset([u]);
  }

  lemma TrapGuarded(l: Lit, x: nat, y: nat, i: nat, t: set<Lit>)
    requires i < |Guarded(l.Neg(), AllFour(x, y))| && x != y && l.v != x && l.v != y && Lit(x, false) in t && Free(l, t)
    requires forall u :: u in t ==> u.v != y
    ensures Settled(multiset(Guarded(l.Neg(), AllFour(x, y))[i]), t)
  {
    var c := Guarded(l.Neg(), AllFour(x, y))[i];
    assert c == [l.Neg(), c[1], c[2]];
    if i < 2 {
      assert multiset(c) == multiset{l.Neg(), c[1], c[2]};
      assert c[2] in multiset(c) - multiset{l.Neg()} && Free(c[2], t) && Free(l.Neg(), t);
    } else {
      assert c[1] in multiset(c) && c[1] in t;
    }
  }

  ghost predicate Repeated(c: Clause, l: Lit) { exists i, j :: 0 <= i < j < |c| && c[i] == c[j] == l }

  lemma RepeatedBag(c: Clause, l: Lit)
    requires Repeated(c, l)
    ensures l in multiset(c) - multiset{l}
  {
    var i, j :| 0 <= i < j < |c| && c[i] == c[j] == l;
    assert c == c[..i] + [l] + c[i + 1..j] + [l] + c[j + 1..];
  }

  lemma TrapOnce(d: Clause, l: Lit, x: nat, y: nat)
    requires x != y && l.v != x && l.v != y
    ensures forall c :: c in Trap(d, l, x, y) ==> c == d || !Repeats(c)
  {
    var g, cs := Guarded(l.Neg(), AllFour(x, y)), AllFour(x, y);
    forall i | 0 <= i < 4 ensures !Repeats(g[i]) {
      assert g[i] == [l.Neg(), cs[i][0], cs[i][1]];
    }
  }

  lemma {:induction false} UnitsHold(cnf: seq<Clause>, units: seq<Lit>, a: Assignment, n: nat)
    requires P.UnitsForced(cnf, units, 0) && Models(a, Bags(cnf)) && n <= |units|
    ensures AllHold(Elems(units[..n]), a)
  {
    if n > 0 {
      UnitsHold(cnf, units, a, n - 1);
      assert P.ForcedAt(cnf, units, n - 1);
      var p, u := units[..n - 1], units[n - 1];
      var d :| d in cnf && Forces(d, p, u);
      assert Forces(d, p, u);
      assert Sat(multiset(d), a) by {
        assert multiset(d) in Bags(cnf);
      }
      var k :| k in multiset(d) && Holds(k, a);
      assert k in d;
      assert k != u ==> k.Neg() in Elems(p);
      assert units[..n] == p + [u];
    }
  }

  // Simplification loses no model.
  lemma GivenModels(cnf: seq<Clause>, cs: seq<Clause>, units: seq<Lit>, a: Assignment)
    requires Simplified(cnf, cs, units) && Models(a, Bags(cnf))
    ensures Models(a, Bags(Formula(cs, units)))
  {
    UnitsHold(cnf, units, a, |units|);
    assert units[..|units|] == units;
    forall b | b in Bags(Formula(cs, units)) ensures Sat(b, a) {
      var c :| c in Formula(cs, units) && b == multiset(c);
      if c in cs {
        assert P.LeftIn(cnf, c, units);
        var d :| d in cnf && P.LeftOf(d, c, units);
        assert multiset(d) in Bags(cnf);
        P.LeftMeans(d, c, units, a);
      } else {
        var i :| 0 <= i < |units| && c == [units[i]];
        assert units[i] in multiset(c) && units[i] in Elems(units);
      }
    }
  }

  // With x refuted, the checker starts from no more than the literals of the trap.
  lemma TrapReach(d: Clause, l: Lit, x: nat, y: nat, bindings: C.Units)
    requires Repeated(d, l) && x < |bindings|
    requires C.UnitsFromClauses(Trap(d, l, x, y), |Trap(d, l, x, y)|, bindings)
    ensures C.UnitSet(bindings[x := -1]) <= TrapBound(d, l, x)
  {
    var cnf := Trap(d, l, x, y);
    forall u | u in C.UnitSet(bindings[x := -1]) ensures u in TrapBound(d, l, x) {
      if u.v != x {
        assert cnf[..|cnf|] == cnf && [u] in cnf;
        var i :| 0 <= i < |cnf| && cnf[i] == [u];
        assert |d| >= 2 && 1 <= i <= |Others(d, l)|;
        assert cnf[i] == [Others(d, l)[i - 1]];
      }
    }
  }

  lemma TrapRefused(d: Clause, l: Lit, x: nat, y: nat, bindings: C.Units)
    requires Repeated(d, l) && !P.Tautological(d) && x != y && x !in Vars(d) && y !in Vars(d)
    requires C.UnitsFromClauses(Trap(d, l, x, y), |Trap(d, l, x, y)|, bindings)
    ensures !C.Accepts(Trap(d, l, x, y), bindings, [[Lit(x, true)], []])
  {
    var cnf, cert: seq<Clause> := Trap(d, l, x, y), [[Lit(x, true)], []];
    var t := TrapBound(d, l, x);
    if C.InRange(cert[0], |bindings|) {
      TrapSettled(d, l, x, y);
      assert cert[0][0].v < |bindings|;
      assert cert[0][..0] == [] && C.Assume(bindings, cert[0]) == bindings[x := -1];
      TrapReach(d, l, x, y, bindings);
      StableNotConflicting(Bags(cnf), C.UnitSet(C.Assume(bindings, cert[0])), t);
      assert cnf + cert[..0] == cnf;
    }
    assert !C.AcceptsAt(cnf, bindings, cert, 0);
  }

  // A clause that repeats a literal without being a tautology does harm: beside clauses without repetitions it
  // makes an unsatisfiable problem with a certificate that is right for the simplified problem and refused for
  // the clauses given, whatever bindings the checker has read from their units.
  lemma HarmDone(d: Clause, x: nat, y: nat) returns (cnf: seq<Clause>, cs: seq<Clause>, units: seq<Lit>, cert: seq<Clause>)
    requires !Harmless(d) && x != y && x !in Vars(d) && y !in Vars(d)
    ensures d in cnf && (forall c :: c in cnf ==> c == d || !Repeats(c)) && Unsatisfiable(Bags(cnf))
    ensures Simplified(cnf, cs, units) && CertOk(Formula(cs, units), cert) && [] in cert
    ensures forall bindings: C.Units :: C.UnitsFromClauses(cnf, |cnf|, bindings) ==> !C.Accepts(cnf, bindings, cert)
  {
    var i, j :| 0 <= i < j < |d| && d[i] == d[j];
    var l := d[i];
    assert l.v in Vars(d);
    cnf, cs, units, cert := Trap(d, l, x, y), AllFour(x, y), TrapUnits(d, l), [[Lit(x, true)], []];
    assert cnf[0] == d;
    TrapOnce(d, l, x, y);
    TrapSimplified(d, l, x, y);
    TrapCertified(cs, units, x, y);
    CertRefutes(Formula(cs, units), cert);
    forall a: Assignment | Models(a, Bags(cnf)) ensures false {
      GivenModels(cnf, cs, units, a);
    }
    TrapSettled(d, l, x, y);
    forall bindings: C.Units | C.UnitsFromClauses(cnf, |cnf|, bindings) ensures !C.Accepts(cnf, bindings, cert) {
      TrapRefused(d, l, x, y, bindings);
    }
  }

  // The smallest such input: the clause "a or a" gives the unit a, which the checker does not see.
  lemma RefusedInput()
    ensures var cnf := [[Lit(0, true), Lit(0, true)],
                        [Lit(0, false), Lit(1, true), Lit(2, true)], [Lit(0, false), Lit(1, true), Lit(2, false)],
                        [Lit(0, false), Lit(1, false), Lit(2, true)], [Lit(0, false), Lit(1, false), Lit(2, false)]];
            && Simplified(cnf, AllFour(1, 2), [Lit(0, true)])
            && CertOk(Formula(AllFour(1, 2), [Lit(0, true)]), [[Lit(1, true)], []])
            && !C.Accepts(cnf, [0, 0, 0], [[Lit(1, true)], []])
  {
    var d, l := [Lit(0, true), Lit(0, true)], Lit(0, true);
    assert d[0] == d[1] == l && Vars(d) == {0};
    RefusedClauses();
    TrapSimplified(d, l, 1, 2);
    TrapCertified(AllFour(1, 2), [l], 1, 2);
    assert forall k :: k in d ==> k == l;
    hide AllFour, Others, Guarded, C.Accepts, C.Assume;
    TrapRefused(d, l, 1, 2, [0, 0, 0]);
  }

  lemma RefusedClauses()
    ensures var d, l := [Lit(0, true), Lit(0, true)], Lit(0, true);
            && Trap(d, l, 1, 2) == [d, [Lit(0, false), Lit(1, true), Lit(2, true)], [Lit(0, false), Lit(1, true), Lit(2, false)],
                                    [Lit(0, false), Lit(1, false), Lit(2, true)], [Lit(0, false), Lit(1, false), Lit(2, false)]]
            && TrapUnits(d, l) == [l]
  {
    var d, l := [Lit(0, true), Lit(0, true)], Lit(0, true);
    assert d[..1] == [l] && d[..1][..0] == [] && d[1] == l && Others(d[..1], l) == [];
    assert Others(d, l) == Others(d[..1], l) + [];
    var g := Guarded(l.Neg(), AllFour(1, 2));
    assert g[0] == [l.Neg(), Lit(1, true), Lit(2, true)] && g[1] == [l.Neg(), Lit(1, true), Lit(2, false)];
    assert g[2] == [l.Neg(), Lit(1, false), Lit(2, true)] && g[3] == [l.Neg(), Lit(1, false), Lit(2, false)];
    assert Trap(d, l, 1, 2) == [d] + g;
  }

  // ----- the solver and the checker together -----

  lemma SimplifiedBy(cnf: seq<Clause>, cs: seq<Clause>, units: seq<Lit>, m: Model)
    requires P.UnitsForced(cnf, units, 0) && P.AllLeft(cnf, cs, units) && forall c :: c in cs ==> P.Clean(c, m)
    ensures Simplified(cnf, cs, units)
  {
    forall c | c in cs ensures !P.Tautological(c) {
      assert P.Clean(c, m);
    }
  }

  lemma SameVerdict(cnf: seq<Clause>, cs: seq<Clause>, units: seq<Lit>, a: Assignment)
    requires P.SameModels(cnf, [], cs, units)
    ensures Models(a, Bags(cnf)) <==> Models(a, Bags(Formula(cs, units)))
  {
    D.MeetsModels(a, cnf);
    D.FormulaModels(a, cs, units);
  }

  lemma NoModels(cnf: seq<Clause>)
    requires P.NoModel(cnf, [])
    ensures Unsatisfiable(Bags(cnf))
  {
    forall a: Assignment ensures !Models(a, Bags(cnf)) {
      D.MeetsModels(a, cnf);
    }
  }

  lemma NoModelsEither(cnf: seq<Clause>, cs: seq<Clause>, units: seq<Lit>)
    requires P.SameModels(cnf, [], cs, units) && Unsatisfiable(Bags(Formula(cs, units)))
    ensures Unsatisfiable(Bags(cnf))
  {
    forall a: Assignment ensures !Models(a, Bags(cnf)) {
      SameVerdict(cnf, cs, units, a);
    }
  }

  lemma Ranges(cnf: seq<Clause>, cert: seq<Clause>, nbVars: nat)
    requires (forall c :: c in cnf ==> P.InRange(c, nbVars)) && CertShape(cert, nbVars)
    ensures forall i :: 0 <= i < |cnf| ==> C.InRange(cnf[i], nbVars)
    ensures forall k :: 0 <= k < |cert| ==> C.InRange(cert[k], nbVars)
  {
    assert forall i :: 0 <= i < |cnf| ==> P.InRange(cnf[i], nbVars);
    assert forall k :: 0 <= k < |cert| ==> ShapeOk(cert[k], nbVars);
  }

  lemma Modelled(f: set<Bag>, a: Assignment)
    requires Models(a, f)
    ensures !Unsatisfiable(f)
  {
  }

  // What is extracted: of the clauses given the tagged ones, which are the units and the clauses that were used in
  // accepting the clauses of some certificate.
  ghost predicate Extracted(cnf: seq<Clause>, subset: seq<Clause>)
  {
    exists bindings, cert, tagged :: ExtractedBy(cnf, subset, bindings, cert, tagged)
  }

  ghost predicate ExtractedBy(cnf: seq<Clause>, subset: seq<Clause>, bindings: C.Units, cert: seq<Clause>, tagged: seq<bool>)
  {
    C.UnitsFromClauses(cnf, |cnf|, bindings) && C.Accepts(cnf, bindings, cert) && |tagged| == |cnf|
    && C.AllUsed(cnf, bindings, cert, tagged) && subset == C.Selected(cnf, tagged)
  }

  // Simplifies and solves the clauses given, has the certificate checked against them and extracts the clauses
  // that were used. A problem that is refuted while it is loaded, by unit steps alone, is its own subset.
  method UnsatSubset(nbVars: nat, cnf: seq<Clause>, activity: seq<real>)
    returns (status: Status, valid: bool, subset: seq<Clause>)
    requires (forall c :: c in cnf ==> P.InRange(c, nbVars)) && |activity| == nbVars
    ensures status == if Unsatisfiable(Bags(cnf)) then IsUnsat else IsSat
    ensures valid ==> status == IsUnsat && Unsatisfiable(Bags(subset)) && multiset(subset) <= multiset(cnf)
    ensures valid ==> (subset == cnf && exists us :: P.RefutedBy(cnf, us)) || Extracted(cnf, subset)
    ensures status == IsUnsat && AllHarmless(cnf) ==> valid
    ensures status == IsSat ==> exists a: Assignment :: Models(a, Bags(cnf))
  {
    hide Bags, Unsatisfiable, Models, Formula, CertOk, CertShape, C.Accepts, C.InRange, C.UpToEmpty, C.UnitsFromClauses, C.AllUsed,
      C.Selected, Simplified, AllHarmless, P.UnitsForced, P.AllLeft, P.Clean, P.Solves, P.RefutedBy;
    var problem := new P.Problem(nbVars, cnf);
    if problem.status == IsUnsat {
      NoModels(cnf);
      return IsUnsat, true, cnf;
    }
    var cs, units := problem.clauses, problem.units;
    SimplifiedBy(cnf, cs, units, problem.model);
    var solver := new S.Solver(nbVars, cs, units, activity);
    status := solver.Solve();
    if status == IsSat {
      SameVerdict(cnf, cs, units, AssignmentOf(solver.model));
      Modelled(Bags(cnf), AssignmentOf(solver.model));
      return status, false, [];
    }
    NoModelsEither(cnf, cs, units);
    var bindings := ReadUnits(nbVars, cnf);
    if AllHarmless(cnf) {
      CertAccepted(cnf, cs, units, bindings, solver.cert);
      UpToEmptyIsPrefix(solver.cert);
      AcceptsPrefix(cnf, bindings, solver.cert, C.UpToEmpty(solver.cert));
    }
    Ranges(cnf, solver.cert, nbVars);
    var checker := new C.Problem(nbVars, cnf, bindings);
    valid, subset := checker.UnsatSubset(solver.cert, status == IsSat);
    if valid {
      assert ExtractedBy(cnf, subset, bindings, C.UpToEmpty(solver.cert), checker.tagged);
    }
  }
}
