// What the solver knows at each moment of a run: the problem it was given, and the certificate it has
// written so far (solver/watcher.go:252-284, solver/solver.go:520-531).
module Certificate {
  import opened Logic
  import opened UnitProp
  import opened Bindings
  import opened Watches
  import opened State
  import opened Learn
  import opened Backjump

  function UnitClauses(units: seq<Lit>): seq<Clause> { seq(|units|, i requires 0 <= i < |units| => [units[i]]) }

  // The problem as a list of clauses, unit clauses last.
  function Formula(problem: seq<Clause>, units: seq<Lit>): seq<Clause> { problem + UnitClauses(units) }

  // Each clause of the certificate is a reverse-unit-propagation consequence of the formula and of the
  // clauses before it.
  ghost predicate CertOk(formula: seq<Clause>, cert: seq<Clause>)
  {
    forall k :: 0 <= k < |cert| ==> CertAt(formula, cert, k)
  }

  ghost predicate CertAt(formula: seq<Clause>, cert: seq<Clause>, k: nat)
    requires k < |cert|
  {
    Rup(Bags(formula + cert[..k]), multiset(cert[k]))
  }

  ghost predicate Loaded(problem: seq<Clause>, units: seq<Lit>, s: Core)
  {
    (forall i :: 0 <= i < |problem| ==> i in s.live && i < |s.clauses| && multiset(s.clauses[i]) == multiset(problem[i]))
    && (forall u :: u in units ==> u in s.trail && Level(s.model, u.v) == 1)
  }

  // The problem clauses are all in the arena, its units are bound at the top, everything learned is certified.
  ghost predicate Books(problem: seq<Clause>, units: seq<Lit>, cert: seq<Clause>, s: Core)
  {
    Loaded(problem, units, s) && CertOk(Formula(problem, units), cert)
    && Known(Bags(Formula(problem, units) + cert), s)
  }

  lemma BagsMore(a: seq<Clause>, c: Clause)
    ensures Bags(a + [c]) == Bags(a) + {multiset(c)}
  {
    var b := a + [c];
    forall x | x in Bags(a) + {multiset(c)} ensures x in Bags(b) {
      if x == multiset(c) {
        assert b[|a|] == c && c in b;
      } else {
        var d :| d in a && multiset(d) == x;
        assert d in b;
      }
    }
  }

  lemma CertNext(formula: seq<Clause>, cert: seq<Clause>, c: Clause)
    requires CertOk(formula, cert) && Rup(Bags(formula + cert), multiset(c))
    ensures CertOk(formula, cert + [c])
    ensures Bags(formula + (cert + [c])) == Bags(formula + cert) + {multiset(c)}
  {
    var cert' := cert + [c];
    forall k | 0 <= k < |cert'| ensures CertAt(formula, cert', k) {
      if k < |cert| {
        assert CertAt(formula, cert, k);
        assert cert'[..k] == cert[..k];
      } else {
        assert cert'[..k] == cert;
      }
    }
    assert formula + cert' == (formula + cert) + [c];
    BagsMore(formula + cert, c);
  }

  // Certified clauses are consequences of the formula.
  lemma {:induction false} CertEntailed(formula: seq<Clause>, cert: seq<Clause>, k: nat, a: Assignment)
    requires CertOk(formula, cert) && k <= |cert| && Models(a, Bags(formula))
    ensures Models(a, Bags(formula + cert[..k]))
  {
    if k == 0 {
      assert formula + cert[..0] == formula;
    } else {
      CertEntailed(formula, cert, k - 1, a);
      assert CertAt(formula, cert, k - 1);
      RupEntails(Bags(formula + cert[..k - 1]), multiset(cert[k - 1]));
      assert formula + cert[..k] == (formula + cert[..k - 1]) + [cert[k - 1]];
      BagsMore(formula + cert[..k - 1], cert[k - 1]);
    }
  }

  // A certificate that contains the empty clause refutes the formula.
  lemma CertRefutes(formula: seq<Clause>, cert: seq<Clause>)
    requires CertOk(formula, cert) && [] in cert
    ensures Unsatisfiable(Bags(formula))
  {
    var k: nat :| k < |cert| && cert[k] == [];
    assert CertAt(formula, cert, k);
    RupEntails(Bags(formula + cert[..k]), multiset(cert[k]));
    forall a: Assignment ensures !Models(a, Bags(formula)) {
      if Models(a, Bags(formula)) {
        CertEntailed(formula, cert, k, a);
      }
      assert !Sat(multiset(cert[k]), a);
    }
  }

  lemma BooksGrown(problem: seq<Clause>, units: seq<Lit>, cert: seq<Clause>, a: Core, b: Core, lvl: nat)
    requires Books(problem, units, cert, a) && Grown(a, b, lvl) && TrailOk(a.model, a.trail) && |a.reason| == |a.model|
    ensures Books(problem, units, cert, b)
  {
    KnownGrown(Bags(Formula(problem, units) + cert), a, b, lvl);
    LoadedGrown(problem, units, a, b, lvl);
    hide Loaded, CertOk, Known, Grown, TrailOk;
  }

  lemma LoadedGrown(problem: seq<Clause>, units: seq<Lit>, a: Core, b: Core, lvl: nat)
    requires Loaded(problem, units, a) && Grown(a, b, lvl) && TrailOk(a.model, a.trail)
    ensures Loaded(problem, units, b)
  {
    forall i | 0 <= i < |problem|
      ensures i in b.live && i < |b.clauses| && multiset(b.clauses[i]) == multiset(problem[i])
    {
      BagGrown(problem, units, a, b, i);
    }
    forall u | u in units ensures u in b.trail && Level(b.model, u.v) == 1 {
      UnitGrown(a, b, lvl, u);
    }
  }

  lemma BagGrown(problem: seq<Clause>, units: seq<Lit>, a: Core, b: Core, i: nat)
    requires Loaded(problem, units, a) && SameBags(a.clauses, b.clauses) && a.live == b.live && i < |problem|
    ensures i in b.live && i < |b.clauses| && multiset(b.clauses[i]) == multiset(problem[i])
  {
    assert i in a.live && i < |a.clauses| && multiset(a.clauses[i]) == multiset(problem[i]);
  }

  // A literal true at level 1 stays so.
  lemma UnitGrown(a: Core, b: Core, lvl: nat, u: Lit)
    requires Grown(a, b, lvl) && TrailOk(a.model, a.trail) && u in a.trail && Level(a.model, u.v) == 1
    ensures u in b.trail && Level(b.model, u.v) == 1
  {
    var k :| 0 <= k < |a.trail| && a.trail[k] == u;
    assert b.trail[k] == u && True(a.model, u);
  }

  lemma BooksCut(problem: seq<Clause>, units: seq<Lit>, cert: seq<Clause>, a: Core, b: Core, i: nat, lvl: nat)
    requires Books(problem, units, cert, a) && Cut(a, b, i, lvl) && TrailOk(a.model, a.trail) && |a.reason| == |a.model|
    requires lvl >= 1
    ensures Books(problem, units, cert, b)
  {
    CutKnown(Bags(Formula(problem, units) + cert), a, b, i, lvl);
    forall u | u in units ensures u in b.trail && Level(b.model, u.v) == 1 {
      CutBinding(a, b, i, lvl, u);
    }
  }

  lemma BooksPushed(problem: seq<Clause>, units: seq<Lit>, cert: seq<Clause>, s: Core, nbVars: nat, lit: Lit, lvl: nat)
    requires |s.model| == |s.reason| == nbVars
    requires Books(problem, units, cert, s) && CoreOk(s, nbVars) && lit.v < nbVars && s.model[lit.v] == 0 && lvl >= 1
    requires s.reason[lit.v] == None && lvl == 1 ==> multiset{lit} in Bags(Formula(problem, units) + cert)
    ensures Books(problem, units, cert, Pushed(s, lit, lvl, s.reason[lit.v]))
  {
    KnownPushed(Bags(Formula(problem, units) + cert), s, nbVars, lit, lvl);
    FreeNotInTrail(s.model, s.trail, lit);
  }

  // Writing a learned clause to the certificate.
  lemma BooksCertify(problem: seq<Clause>, units: seq<Lit>, cert: seq<Clause>, s: Core, c: Clause)
    requires Books(problem, units, cert, s) && Rup(Bags(Formula(problem, units) + cert), multiset(c))
    ensures Books(problem, units, cert + [c], s)
    ensures multiset(c) in Bags(Formula(problem, units) + (cert + [c]))
  {
    CertNext(Formula(problem, units), cert, c);
    KnownMore(Bags(Formula(problem, units) + cert), Bags(Formula(problem, units) + (cert + [c])), s);
  }

  lemma BooksAdd(problem: seq<Clause>, units: seq<Lit>, cert: seq<Clause>, s: Core, c: Clause, i: ClauseInfo)
    requires Books(problem, units, cert, s) && multiset(c) in Bags(Formula(problem, units) + cert)
    ensures Books(problem, units, cert, WithClause(s, c, i))
  {
    KnownAdded(Bags(Formula(problem, units) + cert), s, c, i);
  }

  function AssignmentOf(m: Model): Assignment { (v: nat) => v < |m| && m[v] > 0 }

  lemma TrueHolds(m: Model, c: Clause)
    requires HasTrue(m, c)
    ensures Sat(multiset(c), AssignmentOf(m))
  {
    var l :| l in c && True(m, l);
    assert l in multiset(c) && Holds(l, AssignmentOf(m));
  }

  lemma FormulaMember(problem: seq<Clause>, units: seq<Lit>, c: Bag)
    requires c in Bags(Formula(problem, units))
    ensures (exists i :: 0 <= i < |problem| && c == multiset(problem[i])) || (exists u :: u in units && c == multiset([u]))
  {
    var f := Formula(problem, units);
    var d :| d in f && c == multiset(d);
    var i :| 0 <= i < |f| && f[i] == d;
    if i >= |problem| {
      assert d == [units[i - |problem|]];
      assert units[i - |problem|] in units;
    }
  }

  // When every variable is bound and everything is propagated, the bindings satisfy the problem.
  lemma TotalSatisfies(problem: seq<Clause>, units: seq<Lit>, cert: seq<Clause>, s: Core, nbVars: nat,
                       wl: Lists, wb: Lists, lvl: nat)
    requires Books(problem, units, cert, s) && Sound(s, nbVars, wl, wb, Elems(s.trail), lvl) && |s.model| == nbVars
    requires forall v :: 0 <= v < nbVars ==> s.model[v] != 0
    ensures Models(AssignmentOf(s.model), Bags(Formula(problem, units)))
  {
    hide Sound, SoundFor, CertOk, Known, Loaded, HasTrue, Sat, Formula, Bags;
    forall c | c in Bags(Formula(problem, units)) ensures Sat(c, AssignmentOf(s.model)) {
      FormulaMember(problem, units, c);
      if i :| 0 <= i < |problem| && c == multiset(problem[i]) {
        ProblemTrue(problem, units, s, nbVars, wl, wb, lvl, i);
      } else {
        var u :| u in units && c == multiset([u]);
        UnitTrue(problem, units, s, nbVars, wl, wb, lvl, u);
        TrueHolds(s.model, [u]);
      }
    }
  }

  lemma ProblemTrue(problem: seq<Clause>, units: seq<Lit>, s: Core, nbVars: nat, wl: Lists, wb: Lists, lvl: nat, i: nat)
    requires Loaded(problem, units, s) && Sound(s, nbVars, wl, wb, Elems(s.trail), lvl) && |s.model| == nbVars
    requires i < |problem| && forall v :: 0 <= v < nbVars ==> s.model[v] != 0
    ensures Sat(multiset(problem[i]), AssignmentOf(s.model))
  {
    PropagatedTrue(s, nbVars, wl, wb, lvl, i);
    TrueHolds(s.model, s.clauses[i]);
  }

  lemma UnitTrue(problem: seq<Clause>, units: seq<Lit>, s: Core, nbVars: nat, wl: Lists, wb: Lists, lvl: nat, u: Lit)
    requires Loaded(problem, units, s) && Sound(s, nbVars, wl, wb, Elems(s.trail), lvl) && u in units
    ensures HasTrue(s.model, [u])
  {
    assert u in s.trail && True(s.model, u);
    assert u in [u];
  }

  // Once everything is propagated, a live clause holds a true literal or leaves both its watches free.
  lemma PropagatedTrue(s: Core, nbVars: nat, wl: Lists, wb: Lists, lvl: nat, c: nat)
    requires Sound(s, nbVars, wl, wb, Elems(s.trail), lvl) && c in s.live
    ensures c < |s.clauses| && |s.clauses[c]| >= 2
    ensures s.clauses[c][0].v < nbVars && s.clauses[c][1].v < nbVars
    ensures HasTrue(s.model, s.clauses[c])
            || (s.model[s.clauses[c][0].v] == 0 && s.model[s.clauses[c][1].v] == 0)
  {
    assert ClauseOk(s.clauses[c], nbVars);
    assert ClauseGuarded(s.model, s.clauses[c], Elems(s.trail));
    forall k: nat | k < 2 && False(s.model, s.clauses[c][k]) ensures HasTrue(s.model, s.clauses[c]) {
      FalseInTrail(s.model, s.trail, s.clauses[c][k]);
      assert Guarded(s.model, s.clauses[c], s.clauses[c][k], Elems(s.trail));
    }
    forall k: nat | k < 2 && True(s.model, s.clauses[c][k]) ensures HasTrue(s.model, s.clauses[c]) {
    }
  }

  // ----- the learned clauses -----

  // Learned clauses are live, listed once, behind the problem clauses, and their block distance is at most
  // their length: one of distance above 2 has at least three literals.
  ghost predicate LearnedOk(s: Core, learned: seq<nat>, base: nat)
  {
    (forall i :: 0 <= i < |learned| ==> LearnedAt(s, learned[i], base))
    && forall i, j :: 0 <= i < j < |learned| ==> learned[i] != learned[j]
  }

  ghost predicate LearnedAt(s: Core, c: nat, base: nat)
  {
    base <= c < |s.clauses| && c < |s.info| && c in s.live && s.info[c].lbd <= |s.clauses[c]|
  }

  // The next state keeps every live clause, up to the order of its literals.
  ghost predicate Keeps(a: Core, b: Core)
  {
    a.live <= b.live && |a.clauses| <= |b.clauses| && |a.info| <= |b.info|
    && (forall c :: 0 <= c < |a.clauses| ==> multiset(a.clauses[c]) == multiset(b.clauses[c]))
    && (forall c :: 0 <= c < |a.info| ==> a.info[c].lbd == b.info[c].lbd)
  }

  lemma LearnedKept(a: Core, b: Core, learned: seq<nat>, base: nat)
    requires LearnedOk(a, learned, base) && Keeps(a, b)
    ensures LearnedOk(b, learned, base)
  {
    forall i | 0 <= i < |learned| ensures LearnedAt(b, learned[i], base) {
      assert LearnedAt(a, learned[i], base);
      assert |multiset(a.clauses[learned[i]])| == |a.clauses[learned[i]]|;
      assert |multiset(b.clauses[learned[i]])| == |b.clauses[learned[i]]|;
    }
  }

  lemma LearnedMore(s: Core, learned: seq<nat>, base: nat, c: Clause, lbd: nat)
    requires LearnedOk(s, learned, base) && |s.info| == |s.clauses| && base <= |s.clauses| && lbd <= |c|
    ensures LearnedOk(WithClause(s, c, ClauseInfo(true, false, lbd)), learned + [|s.clauses|], base)
  {
    var s' := WithClause(s, c, ClauseInfo(true, false, lbd));
    forall i | 0 <= i < |learned| ensures LearnedAt(s', learned[i], base) && learned[i] != |s.clauses| {
      assert LearnedAt(s, learned[i], base);
    }
  }

  lemma BooksDeleted(problem: seq<Clause>, units: seq<Lit>, cert: seq<Clause>, s: Core, c: nat)
    requires Books(problem, units, cert, s) && c >= |problem|
    ensures Books(problem, units, cert, s.(live := s.live - {c}))
  {
  }

  lemma BooksAsserted(problem: seq<Clause>, units: seq<Lit>, cert: seq<Clause>, s: Core, lit: Lit, id: nat)
    requires Books(problem, units, cert, s) && lit.v < |s.reason| && id < |s.info| && lit.v < |s.model|
    requires s.model[lit.v] == 0 && TrailOk(s.model, s.trail)
    ensures Books(problem, units, cert, Asserted(s, lit, id))
  {
    BooksIrrelevant(Bags(Formula(problem, units) + cert), s, lit, id);
  }

  // ----- the shape of the certificate -----

  ghost predicate ShapeOk(c: Clause, nbVars: nat) { DistinctVars(c) && forall i :: 0 <= i < |c| ==> c[i].v < nbVars }

  // Every certificate clause is over distinct known variables.
  ghost predicate CertShape(cert: seq<Clause>, nbVars: nat)
  {
    forall k :: 0 <= k < |cert| ==> ShapeOk(cert[k], nbVars)
  }

  lemma ShapeNext(cert: seq<Clause>, nbVars: nat, c: Clause)
    requires CertShape(cert, nbVars) && ShapeOk(c, nbVars)
    ensures CertShape(cert + [c], nbVars)
  {
  }

  lemma ClauseShape(c: Clause, nbVars: nat)
    requires ClauseOk(c, nbVars)
    ensures ShapeOk(c, nbVars)
  {
  }
}
