// Loading a clausal problem and simplifying it in place at level 0: parseSlice (solver/parser.go), simplify2,
// addUnit and updateStatus (solver/problem.go).
module Simplify {
  import opened Logic
  import opened Bindings
  import opened Watches
  import opened Steps

  ghost predicate Meets(a: Assignment, cs: seq<Clause>) { forall c :: c in cs ==> Sat(multiset(c), a) }

  ghost predicate Solves(a: Assignment, cs: seq<Clause>, units: seq<Lit>) { Meets(a, cs) && AllHold(Elems(units), a) }

  ghost predicate SameModels(cs: seq<Clause>, units: seq<Lit>, cs': seq<Clause>, units': seq<Lit>)
  {
    forall a: Assignment :: Solves(a, cs, units) <==> Solves(a, cs', units')
  }

  ghost predicate NoModel(cs: seq<Clause>, units: seq<Lit>) { forall a: Assignment :: !Solves(a, cs, units) }

  // The bindings are exactly the units.
  ghost predicate UnitsBound(m: Model, units: seq<Lit>)
  {
    (forall v :: 0 <= v < |m| ==> -1 <= m[v] <= 1) && (forall u :: u in units ==> u.v < |m|)
    && forall l: Lit :: True(m, l) <==> l in units
  }

  ghost predicate InRange(c: Clause, n: nat) { forall l :: l in c ==> l.v < n }

  // Nothing to simplify in c: two literals or more, on distinct variables, all of them free.
  ghost predicate Clean(c: Clause, m: Model) { ClauseOk(c, |m|) && forall l :: l in c ==> l.v < |m| && m[l.v] == 0 }

  // c is the clause d without literals that the units make false; a repeated literal may be kept once.
  ghost predicate LeftOf(d: Clause, c: Clause, units: seq<Lit>)
  {
    (forall l :: l in c ==> l in d) && forall l :: l in d ==> l in c || l.Neg() in units
  }

  ghost predicate Tautological(c: Clause) { exists l :: l in c && l.Neg() in c }

  // c is left of a clause of cs0. A tautology may still be there as it was given, but leaves nothing else.
  ghost predicate LeftIn(cs0: seq<Clause>, c: Clause, units: seq<Lit>)
  {
    exists d :: d in cs0 && LeftOf(d, c, units) && (Tautological(d) ==> c == d)
  }

  ghost predicate AllLeft(cs0: seq<Clause>, cs: seq<Clause>, units: seq<Lit>) { forall c :: c in cs ==> LeftIn(cs0, c, units) }

  // From position n on, each unit is all that some clause of cs0 has left after the units before it.
  ghost predicate UnitsForced(cs0: seq<Clause>, units: seq<Lit>, n: nat)
  {
    forall i :: n <= i < |units| ==> ForcedAt(cs0, units, i)
  }

  ghost predicate ForcedAt(cs0: seq<Clause>, units: seq<Lit>, i: nat)
    requires i < |units|
  {
    exists d :: d in cs0 && !Tautological(d) && Forces(d, units[..i], units[i])
  }

  // Unit steps alone refute the clauses: the units are derived in order, and they leave nothing of some clause.
  ghost predicate RefutedBy(cs: seq<Clause>, units: seq<Lit>) { UnitsForced(cs, units, 0) && EmptiedIn(cs, units) }

  ghost predicate EmptiedIn(cs: seq<Clause>, units: seq<Lit>) { exists d :: d in cs && LeftOf(d, [], units) }

  ghost predicate SatUnder(c: Clause, m: Model) { forall a: Assignment :: Follows(a, m) ==> Sat(multiset(c), a) }

  lemma UnitsFollowed(m: Model, units: seq<Lit>, a: Assignment)
    requires UnitsBound(m, units)
    ensures AllHold(Elems(units), a) <==> Follows(a, m)
  {
    if Follows(a, m) {
      forall u | u in Elems(units) ensures Holds(u, a) {
        assert True(m, u);
      }
    }
    if AllHold(Elems(units), a) {
      forall v | 0 <= v < |m| && m[v] != 0 ensures a(v) == (m[v] > 0) {
        var l := Lit(v, m[v] > 0);
        assert True(m, l) && l in Elems(units);
      }
    }
  }

  // ----- one clause -----

  // Dropping position k: the last of the first n literals takes its place.
  function Dropped(c: Clause, n: nat, k: nat): (r: Clause)
    requires k < n <= |c|
    ensures |r| == |c|
  {
    c[k := c[n - 1]]
  }

  lemma DroppedElems(c: Clause, n: nat, k: nat)
    requires k < n <= |c|
    ensures forall l :: l in c[..n] <==> l in Dropped(c, n, k)[..n - 1] || l == c[k]
  {
    var r := Dropped(c, n, k)[..n - 1];
    forall i | 0 <= i < n - 1 ensures r[i] in c[..n] {
      assert r[i] == if i == k then c[..n][n - 1] else c[..n][i];
    }
    forall i | 0 <= i < n && i != k ensures c[i] in r {
      assert c[i] == if i == n - 1 then r[k] else r[i];
    }
    assert c[..n][k] == c[k];
  }

  // For every assignment that makes the units true, what is left of a clause means what the clause means.
  lemma LeftMeans(d: Clause, c: Clause, units: seq<Lit>, a: Assignment)
    requires LeftOf(d, c, units) && AllHold(Elems(units), a)
    ensures Sat(multiset(d), a) <==> Sat(multiset(c), a)
  {
    if Sat(multiset(d), a) {
      var l :| l in multiset(d) && Holds(l, a);
      assert l in d && !Holds(l.Neg(), a);
      assert l in multiset(c);
    }
    if Sat(multiset(c), a) {
      var l :| l in multiset(c) && Holds(l, a);
      assert l in c && l in multiset(d);
    }
  }

  lemma DropDuplicate(c0: Clause, c: Clause, n: nat, j: nat, k: nat, units: seq<Lit>)
    requires j < k < n <= |c| && c[k] == c[j] && LeftOf(c0, c[..n], units)
    ensures LeftOf(c0, Dropped(c, n, k)[..n - 1], units)
  {
    DroppedElems(c, n, k);
    assert Dropped(c, n, k)[..n - 1][j] == c[j];
  }

  lemma DropFalse(c0: Clause, c: Clause, n: nat, k: nat, m: Model, units: seq<Lit>)
    requires k < n <= |c| && False(m, c[k]) && UnitsBound(m, units) && LeftOf(c0, c[..n], units)
    ensures LeftOf(c0, Dropped(c, n, k)[..n - 1], units)
  {
    DroppedElems(c, n, k);
    assert True(m, c[k].Neg());
  }

  lemma Tautology(c0: Clause, c: Clause, n: nat, j: nat, k: nat, m: Model, units: seq<Lit>)
    requires j < k < n <= |c| && c[k] == c[j].Neg() && LeftOf(c0, c[..n], units)
    ensures SatUnder(c0, m)
  {
    assert c[..n][j] == c[j] && c[..n][k] == c[k];
    assert c[j] in c0 && c[k] in c0;
    assert c[j] in multiset(c0) && c[k] in multiset(c0);
    forall a: Assignment ensures Sat(multiset(c0), a) {
      assert Holds(c[j], a) || Holds(c[k], a);
    }
  }

  lemma TrueLiteral(c0: Clause, c: Clause, n: nat, j: nat, m: Model, units: seq<Lit>)
    requires j < n <= |c| && True(m, c[j]) && LeftOf(c0, c[..n], units)
    ensures SatUnder(c0, m)
  {
    assert c[..n][j] == c[j];
    assert c[j] in c0;
    assert c[j] in multiset(c0);
    forall a: Assignment | Follows(a, m) ensures Sat(multiset(c0), a) {
      assert Holds(c[j], a);
    }
  }

  // The first j literals are free and on variables that occur nowhere else among the first n.
  ghost predicate Settled(c: Clause, j: nat, n: nat, m: Model)
  {
    j <= n <= |c| && (forall i :: 0 <= i < j ==> c[i].v < |m| && m[c[i].v] == 0)
    && forall i, k :: 0 <= i < j && i < k < n ==> c[i].v != c[k].v
  }

  // The literals after position j, when position k holds the same literal as j, and when j is dropped itself.
  lemma RestWithout(c: Clause, n: nat, j: nat, k: nat)
    requires j < k < n <= |c| && c[k] == c[j]
    ensures Elems(Dropped(c, n, k)[j..n - 1]) == Elems(c[j..n])
  {
    var q := c[j..];
    DroppedElems(q, n - j, k - j);
    assert c[j..n] == q[..n - j] && Dropped(c, n, k)[j..n - 1] == Dropped(q, n - j, k - j)[..n - j - 1];
    assert Dropped(q, n - j, k - j)[..n - j - 1][0] == c[j];
  }

  // The literals of c0 are those of seen and of rest, and no literal of seen occurs in c0 negated.
  ghost predicate Read(c0: Clause, seen: set<Lit>, rest: set<Lit>)
  {
    Elems(c0) == seen + rest && forall l :: l in seen ==> l.Neg() !in seen && l.Neg() !in rest
  }

  lemma NothingRead(c0: Clause)
    ensures Read(c0, {}, Elems(c0[0..|c0|]))
  {
    assert c0[0..|c0|] == c0;
  }

  lemma ReadOne(c0: Clause, seen: set<Lit>, c: Clause, j: nat, n: nat)
    requires j < n <= |c| && Read(c0, seen, Elems(c[j..n])) && forall i :: j < i < n ==> c[i].v != c[j].v
    ensures Read(c0, seen + {c[j]}, Elems(c[j + 1..n]))
    ensures Elems(Dropped(c, n, j)[j..n - 1]) == Elems(c[j + 1..n])
  {
    RestApart(c, j, n);
    hide Dropped;
  }

  // The literals after position j, whose variable none of them shares.
  lemma RestApart(c: Clause, j: nat, n: nat)
    requires j < n <= |c| && forall i :: j < i < n ==> c[i].v != c[j].v
    ensures Elems(c[j..n]) == {c[j]} + Elems(c[j + 1..n]) && forall l :: l in Elems(c[j + 1..n]) ==> l.v != c[j].v
    ensures Elems(Dropped(c, n, j)[j..n - 1]) == Elems(c[j + 1..n])
  {
    var q := c[j..];
    DroppedElems(q, n - j, 0);
    var r, rest := Dropped(c, n, j)[j..n - 1], c[j + 1..n];
    assert c[j..n] == q[..n - j] == [c[j]] + rest && r == Dropped(q, n - j, 0)[..n - j - 1];
    assert forall i :: 0 <= i < |rest| ==> rest[i] == c[j + 1 + i];
    assert forall i :: 0 <= i < |r| ==> r[i] == if i == 0 then c[n - 1] else c[j + i];
  }

  lemma AllRead(c0: Clause, seen: set<Lit>)
    requires Read(c0, seen, Elems([]))
    ensures !Tautological(c0)
  {
    assert forall l :: l in c0 ==> l in Elems(c0);
  }

  class Problem {
    const nbVars: nat
    var clauses: seq<Clause>
    var units: seq<Lit>
    var model: Model
    var status: Status

    // parseSlice: loads clauses, setting unit clauses apart, and simplifies.
    constructor (nbVars: nat, cnf: seq<Clause>)
      requires forall c :: c in cnf ==> InRange(c, nbVars)
      ensures this.nbVars == nbVars && (status == IsUnsat ==> NoModel(cnf, []) && exists us :: RefutedBy(cnf, us))
      ensures status != IsUnsat ==> SameModels(cnf, [], clauses, units)
      ensures status != IsUnsat ==> Shape() && (forall c :: c in clauses ==> Clean(c, model)) && (status == IsSat <==> clauses == [])
      ensures status != IsUnsat ==> ProblemOk(nbVars, clauses, units)
      ensures status != IsUnsat ==> UnitsForced(cnf, units, 0) && AllLeft(cnf, clauses, units)
    {
      this.nbVars, clauses, units, status := nbVars, [], [], Indet;
      model := seq(nbVars, _ => 0);
      new;
      for i := 0 to |cnf|
        invariant this.nbVars == nbVars && status == Indet && model == seq(nbVars, _ => 0)
        invariant Loaded(cnf[..i], clauses, units, nbVars)
      {
        assert cnf[i] in cnf && cnf[..i + 1] == cnf[..i] + [cnf[i]];
        LoadMore(cnf[..i], cnf[i], clauses, units, nbVars);
        if cnf[i] == [] {
          status := IsUnsat;
          EmptyRefutes(cnf, i);
          assert RefutedBy(cnf, []);
          return;
        }
        if |cnf[i]| == 1 {
          units := units + [cnf[i][0]];
        } else {
          clauses := clauses + [cnf[i]];
        }
      }
      assert cnf[..|cnf|] == cnf;
      for i := 0 to |units|
        invariant this.nbVars == nbVars && status == Indet && Loaded(cnf, clauses, units, nbVars)
        invariant |model| == nbVars && UnitsBound(model, units[..i])
      {
        assert units[i] in units && units[..i + 1] == units[..i] + [units[i]];
        if False(model, units[i]) {
          Clashing(cnf, clauses, units, model, i, nbVars);
          assert RefutedBy(cnf, units);
          status := IsUnsat;
          return;
        }
        BindUnit(model, model[units[i].v := if units[i].pos then 1 else -1], units[..i], units[i]);
        model := model[units[i].v := if units[i].pos then 1 else -1];
      }
      assert units[..|units|] == units;
      ghost var cs, us := clauses, units;
      Simplify2();
      if status == IsUnsat {
        RefutedGiven(cnf, cs, us, units, nbVars);
      } else {
        FromGiven(cnf, cs, us, clauses, units, nbVars);
        Accepted(clauses, units, model);
      }
    }

    ghost predicate Shape()
      reads this
    {
      |model| == nbVars && UnitsBound(model, units) && forall c :: c in clauses ==> InRange(c, nbVars)
    }

    // addUnit: binds a literal for good, unless its negation is.
    method AddUnit(lit: Lit)
      requires Shape() && lit.v < nbVars
      modifies this`model, this`units, this`status
      ensures False(old(model), lit) ==> status == IsUnsat && model == old(model) && units == old(units)
      ensures !False(old(model), lit) ==> Shape() && units == old(units) + [lit] && status == old(status)
    {
      if lit.pos {
        if model[lit.v] == -1 {
          status := IsUnsat;
          return;
        }
        model := model[lit.v := 1];
      } else {
        if model[lit.v] == 1 {
          status := IsUnsat;
          return;
        }
        model := model[lit.v := -1];
      }
      units := units + [lit];
      BindUnit(old(model), model, old(units), lit);
    }

    // The innermost loop of simplify2: compares literal j with those after it, up to its negation.
    method RemoveRepeats(c0: Clause, c: Clause, j: nat, nbLits: nat) returns (c': Clause, nbLits': nat, clauseSat: bool)
      requires |model| == nbVars && j < nbLits && Settled(c, j, nbLits, model) && LeftOf(c0, c[..nbLits], units)
      requires forall i :: 0 <= i < |c| ==> c[i].v < nbVars
      ensures j < nbLits' <= nbLits && |c'| == |c| && c'[j] == c[j] && Settled(c', j, nbLits', model)
      ensures LeftOf(c0, c'[..nbLits'], units) && forall i :: 0 <= i < |c'| ==> c'[i].v < nbVars
      ensures clauseSat ==> SatUnder(c0, model)
      ensures !clauseSat ==> forall i :: j < i < nbLits' ==> c'[i].v != c[j].v
      ensures Elems(c'[j..nbLits']) == Elems(c[j..nbLits])
    {
      hide LeftOf, SatUnder, Elems;
      c', nbLits', clauseSat := c, nbLits, false;
      var lit, k := c[j], j + 1;
      while k < nbLits'
        invariant Settled(c', j, nbLits', model) && |c'| == |c| && forall i :: 0 <= i < |c'| ==> c'[i].v < nbVars
        invariant j < k <= nbLits' <= nbLits && c'[j] == lit && forall i :: j < i < k ==> c'[i].v != lit.v
        invariant LeftOf(c0, c'[..nbLits'], units) && Elems(c'[j..nbLits']) == Elems(c[j..nbLits])
        decreases nbLits' - k
      {
        if c'[k] == lit.Neg() {
          Tautology(c0, c', nbLits', j, k, model, units);
          clauseSat := true;
          return;
        }
        if c'[k] == lit {
          DropDuplicate(c0, c', nbLits', j, k, units);
          RestWithout(c', nbLits', j, k);
          nbLits' := nbLits' - 1;
          c' := c'[k := c'[nbLits']];
        } else {
          k := k + 1;
        }
      }
    }

    // The two inner loops of simplify2 on one clause: removes duplicates and false literals, and stops at a
    // tautology or a true literal.
    method CleanClause(c0: Clause) returns (c: Clause, clauseSat: bool)
      requires |model| == nbVars && UnitsBound(model, units) && InRange(c0, nbVars)
      ensures clauseSat ==> SatUnder(c0, model)
      ensures !clauseSat ==> LeftOf(c0, c, units) && InRange(c, nbVars) && Settled(c, |c|, |c|, model)
      ensures !clauseSat ==> !Tautological(c0)
    {
      hide LeftOf, SatUnder, UnitsBound, Elems, Read;
      UnitValues(model, units);
      c := c0;
      var nbLits, j := |c0|, 0;
      assert c[..nbLits] == c0;
      LeftSelf(c0, units);
      ghost var seen: set<Lit> := {};
      NothingRead(c0);
      while j < nbLits
        invariant Settled(c, j, nbLits, model) && (forall i :: 0 <= i < |c| ==> c[i].v < nbVars)
        invariant LeftOf(c0, c[..nbLits], units) && Read(c0, seen, Elems(c[j..nbLits]))
        decreases nbLits - j
      {
        var lit := c[j];
        c, nbLits, clauseSat := RemoveRepeats(c0, c, j, nbLits);
        if clauseSat {
          return;
        }
        ReadOne(c0, seen, c, j, nbLits);
        seen := seen + {lit};
        if model[lit.v] == 0 {
          j := j + 1;
        } else if (model[lit.v] == 1) == lit.pos {
          TrueLiteral(c0, c, nbLits, j, model, units);
          clauseSat := true;
          return;
        } else {
          DropFalse(c0, c, nbLits, j, model, units);
          nbLits := nbLits - 1;
          c := c[j := c[nbLits]];
        }
      }
      assert c[nbLits..nbLits] == [];
      AllRead(c0, seen);
      c, clauseSat := c[..nbLits], false;
    }

    // simplify2: unit propagation at level 0, with removal of duplicates, tautologies and false literals.
    method Simplify2()
      requires Shape() && status == Indet
      modifies this`clauses, this`units, this`model, this`status
      ensures status == IsUnsat ==> NoModel(old(clauses), old(units)) && old(units) <= units
      ensures status == IsUnsat ==> UnitsForced(old(clauses), units, |old(units)|) && EmptiedIn(old(clauses), units)
      ensures status != IsUnsat ==> Shape() && SameModels(old(clauses), old(units), clauses, units)
      ensures status != IsUnsat ==> (forall c :: c in clauses ==> Clean(c, model)) && (status == IsSat <==> clauses == [])
      ensures status != IsUnsat ==> old(units) <= units
      ensures status != IsUnsat ==>
                UnitsForced(old(clauses), units, |old(units)|) && AllLeft(old(clauses), clauses, units)
    {
      hide InRange, UnitsBound, SameModels, NoModel, Clean, SatUnder, LeftOf, Solves, AllLeft, UnitsForced, Tautological,
        EmptiedIn;
      ghost var cs0, us0 := clauses, units;
      var nbClauses, restart := |clauses|, true;
      assert clauses[..nbClauses] == clauses;
      Reflexive(clauses, units);
      AllLeftSelf(clauses, units);
      while restart
        invariant Shape() && status == Indet && nbClauses <= |clauses| && us0 <= units
        invariant SameModels(cs0, us0, clauses[..nbClauses], units)
        invariant UnitsForced(cs0, units, |us0|) && AllLeft(cs0, clauses[..nbClauses], units)
        invariant !restart ==> forall k :: 0 <= k < nbClauses ==> Clean(clauses[k], model)
        decreases nbClauses, restart
      {
        restart := false;
        var i := 0;
        ghost var before := nbClauses;
        while i < nbClauses
          invariant Shape() && status == Indet && i <= nbClauses <= |clauses| && nbClauses <= before
          invariant us0 <= units
          invariant SameModels(cs0, us0, clauses[..nbClauses], units)
          invariant UnitsForced(cs0, units, |us0|) && AllLeft(cs0, clauses[..nbClauses], units)
          invariant !restart ==> forall k :: 0 <= k < i ==> Clean(clauses[k], model)
          invariant restart ==> nbClauses < before
          decreases nbClauses - i
        {
          assert clauses[i] in clauses;
          var c, clauseSat := CleanClause(clauses[i]);
          if clauseSat {
            DropSat(cs0, us0, clauses, nbClauses, i, units, model);
            AllLeftFewer(cs0, clauses, nbClauses, i, units);
            nbClauses := nbClauses - 1;
            clauses := clauses[i := clauses[nbClauses]];
          } else if c == [] {
            Emptied(cs0, us0, clauses, nbClauses, i, units);
            NothingLeft(cs0, clauses, nbClauses, i, units);
            status := IsUnsat;
            return;
          } else if |c| == 1 {  // unit propagation
            assert c == [c[0]];
            UnitLeft(cs0, us0, clauses, nbClauses, i, units, c[0]);
            ForcedUnit(cs0, clauses, nbClauses, i, units, |us0|, c[0]);
            FreeIsNotFalse(model, c);
            AddUnit(c[0]);
            nbClauses := nbClauses - 1;
            clauses := clauses[i := clauses[nbClauses]];
            restart := true;
          } else {
            Kept(cs0, us0, clauses, nbClauses, i, units, model, c);
            AllLeftKept(cs0, clauses, nbClauses, i, units, c);
            clauses := clauses[i := c];
            i := i + 1;
          }
        }
      }
      UpdateStatus(nbClauses);
    }

    method UpdateStatus(nbClauses: nat)
      requires nbClauses <= |clauses|
      modifies this`clauses, this`status
      ensures clauses == old(clauses)[..nbClauses]
      ensures status == if old(status) == Indet && nbClauses == 0 then IsSat else old(status)
    {
      clauses := clauses[..nbClauses];
      if status == Indet && nbClauses == 0 {
        status := IsSat;
      }
    }
  }

  lemma UnitValues(m: Model, units: seq<Lit>)
    requires UnitsBound(m, units)
    ensures forall v :: 0 <= v < |m| ==> -1 <= m[v] <= 1
  {
  }

  lemma LeftSelf(c: Clause, units: seq<Lit>)
    ensures LeftOf(c, c, units)
  {
  }

  lemma BindUnit(m: Model, m': Model, units: seq<Lit>, lit: Lit)
    requires UnitsBound(m, units) && lit.v < |m| && !False(m, lit) && m' == m[lit.v := if lit.pos then 1 else -1]
    ensures UnitsBound(m', units + [lit])
  {
    forall l: Lit ensures True(m', l) <==> l in units + [lit] {
      if l.v == lit.v {
        assert True(m', l) <==> l == lit;
        assert l in units ==> True(m, l);
      } else {
        assert True(m', l) <==> True(m, l);
      }
    }
  }

  lemma Reflexive(cs: seq<Clause>, units: seq<Lit>)
    ensures SameModels(cs, units, cs, units)
  {
  }

  lemma FreeIsNotFalse(m: Model, c: Clause)
    requires Settled(c, |c|, |c|, m)
    ensures forall i :: 0 <= i < |c| ==> !False(m, c[i]) && c[i].v < |m|
  {
  }

  // The first n clauses with the ith one replaced by the last of them, or by d.
  lemma Without(cs: seq<Clause>, n: nat, i: nat, a: Assignment)
    requires i < n <= |cs|
    ensures Meets(a, cs[..n]) <==> Meets(a, cs[i := cs[n - 1]][..n - 1]) && Sat(multiset(cs[i]), a)
  {
    var r := cs[i := cs[n - 1]][..n - 1];
    if Meets(a, cs[..n]) {
      forall k | 0 <= k < n - 1 ensures r[k] in cs[..n] {
        assert r[k] == if k == i then cs[..n][n - 1] else cs[..n][k];
      }
      assert cs[..n][i] in cs[..n];
    }
    if Meets(a, r) && Sat(multiset(cs[i]), a) {
      forall k | 0 <= k < n ensures Sat(multiset(cs[k]), a) {
        assert k != i && k == n - 1 ==> r[i] == cs[k] && r[i] in r;
        assert k != i && k < n - 1 ==> r[k] == cs[k] && r[k] in r;
      }
    }
  }

  lemma Replaced(cs: seq<Clause>, n: nat, i: nat, c: Clause, a: Assignment)
    requires i < n <= |cs| && (Sat(multiset(cs[i]), a) <==> Sat(multiset(c), a))
    ensures Meets(a, cs[..n]) <==> Meets(a, cs[i := c][..n])
  {
    var p, q := cs[..n], cs[i := c][..n];
    assert p[i] == cs[i] && q[i] == c && forall k :: 0 <= k < n && k != i ==> p[k] == q[k];
    if Meets(a, p) {
      forall k | 0 <= k < n ensures Sat(multiset(q[k]), a) {
        assert p[k] in p;
      }
    }
    if Meets(a, q) {
      forall k | 0 <= k < n ensures Sat(multiset(p[k]), a) {
        assert q[k] in q;
      }
    }
  }

  lemma DropSat(cs0: seq<Clause>, us0: seq<Lit>, cs: seq<Clause>, n: nat, i: nat, units: seq<Lit>, m: Model)
    requires i < n <= |cs| && UnitsBound(m, units) && SatUnder(cs[i], m) && SameModels(cs0, us0, cs[..n], units)
    ensures SameModels(cs0, us0, cs[i := cs[n - 1]][..n - 1], units)
  {
    hide Meets, UnitsBound;
    forall a: Assignment ensures Solves(a, cs0, us0) <==> Solves(a, cs[i := cs[n - 1]][..n - 1], units) {
      Without(cs, n, i, a);
      UnitsFollowed(m, units, a);
    }
  }

  lemma Emptied(cs0: seq<Clause>, us0: seq<Lit>, cs: seq<Clause>, n: nat, i: nat, units: seq<Lit>)
    requires i < n <= |cs| && LeftOf(cs[i], [], units) && SameModels(cs0, us0, cs[..n], units)
    ensures NoModel(cs0, us0)
  {
    forall a: Assignment ensures !Solves(a, cs0, us0) {
      if AllHold(Elems(units), a) {
        LeftMeans(cs[i], [], units, a);
      }
      assert cs[..n][i] in cs[..n];
    }
  }

  lemma NothingLeft(cs0: seq<Clause>, cs: seq<Clause>, n: nat, i: nat, units: seq<Lit>)
    requires i < n <= |cs| && AllLeft(cs0, cs[..n], units) && LeftOf(cs[i], [], units) && !Tautological(cs[i])
    ensures EmptiedIn(cs0, units)
  {
    assert cs[..n][i] in cs[..n];
    LeftInAgain(cs0, cs[i], [], units);
  }

  lemma UnitLeft(cs0: seq<Clause>, us0: seq<Lit>, cs: seq<Clause>, n: nat, i: nat, units: seq<Lit>, u: Lit)
    requires i < n <= |cs| && LeftOf(cs[i], [u], units) && SameModels(cs0, us0, cs[..n], units)
    ensures SameModels(cs0, us0, cs[i := cs[n - 1]][..n - 1], units + [u])
  {
    hide Meets, LeftOf;
    forall a: Assignment ensures Solves(a, cs0, us0) <==> Solves(a, cs[i := cs[n - 1]][..n - 1], units + [u]) {
      Without(cs, n, i, a);
      if AllHold(Elems(units), a) {
        LeftMeans(cs[i], [u], units, a);
      }
      assert Elems(units + [u]) == Elems(units) + {u};
    }
  }

  // ----- what the clauses given still say by themselves -----

  lemma AllLeftSelf(cs: seq<Clause>, units: seq<Lit>)
    ensures AllLeft(cs, cs, units) && UnitsForced(cs, units, |units|)
  {
    forall c | c in cs ensures LeftIn(cs, c, units) {
      LeftSelf(c, units);
    }
  }

  lemma LeftInAgain(cs0: seq<Clause>, c: Clause, c': Clause, units: seq<Lit>)
    requires LeftIn(cs0, c, units) && LeftOf(c, c', units) && !Tautological(c)
    ensures exists d :: d in cs0 && !Tautological(d) && LeftOf(d, c', units)
  {
    var d :| d in cs0 && LeftOf(d, c, units) && (Tautological(d) ==> c == d);
    assert LeftOf(d, c', units);
  }

  lemma AllLeftFewer(cs0: seq<Clause>, cs: seq<Clause>, n: nat, i: nat, units: seq<Lit>)
    requires i < n <= |cs| && AllLeft(cs0, cs[..n], units)
    ensures AllLeft(cs0, cs[i := cs[n - 1]][..n - 1], units)
  {
    var r := cs[i := cs[n - 1]][..n - 1];
    forall k | 0 <= k < n - 1 ensures LeftIn(cs0, r[k], units) {
      assert r[k] == if k == i then cs[..n][n - 1] else cs[..n][k];
    }
  }

  lemma AllLeftKept(cs0: seq<Clause>, cs: seq<Clause>, n: nat, i: nat, units: seq<Lit>, c: Clause)
    requires i < n <= |cs| && AllLeft(cs0, cs[..n], units) && LeftOf(cs[i], c, units) && !Tautological(cs[i])
    ensures AllLeft(cs0, cs[i := c][..n], units)
  {
    assert cs[..n][i] in cs[..n];
    LeftInAgain(cs0, cs[i], c, units);
    var r := cs[i := c][..n];
    forall k | 0 <= k < n ensures LeftIn(cs0, r[k], units) {
      assert r[k] == if k == i then c else cs[..n][k];
    }
  }

  lemma ForcedUnit(cs0: seq<Clause>, cs: seq<Clause>, n: nat, i: nat, units: seq<Lit>, k: nat, u: Lit)
    requires i < n <= |cs| && AllLeft(cs0, cs[..n], units) && UnitsForced(cs0, units, k)
    requires LeftOf(cs[i], [u], units) && !Tautological(cs[i])
    ensures UnitsForced(cs0, units + [u], k) && AllLeft(cs0, cs[i := cs[n - 1]][..n - 1], units + [u])
  {
    AllLeftFewer(cs0, cs, n, i, units);
    assert cs[..n][i] in cs[..n];
    LeftInAgain(cs0, cs[i], [u], units);
    var units' := units + [u];
    forall j | k <= j < |units'| ensures ForcedAt(cs0, units', j) {
      assert units'[..j] == units[..j];
      assert j < |units| ==> ForcedAt(cs0, units, j);
      if j == |units| {
        var d :| d in cs0 && !Tautological(d) && LeftOf(d, [u], units);
        assert u in [u] && Forces(d, units[..j], u);
      }
    }
    forall c | LeftIn(cs0, c, units) ensures LeftIn(cs0, c, units') {
      var d :| d in cs0 && LeftOf(d, c, units) && (Tautological(d) ==> c == d);
      assert LeftOf(d, c, units');
    }
  }

  lemma Kept(cs0: seq<Clause>, us0: seq<Lit>, cs: seq<Clause>, n: nat, i: nat, units: seq<Lit>, m: Model, c: Clause)
    requires i < n <= |cs| && LeftOf(cs[i], c, units) && SameModels(cs0, us0, cs[..n], units)
    requires |c| >= 2 && Settled(c, |c|, |c|, m)
    ensures SameModels(cs0, us0, cs[i := c][..n], units) && Clean(c, m)
  {
    hide Meets, LeftOf;
    forall a: Assignment ensures Solves(a, cs0, us0) <==> Solves(a, cs[i := c][..n], units) {
      if AllHold(Elems(units), a) {
        LeftMeans(cs[i], c, units, a);
        Replaced(cs, n, i, c, a);
      }
    }
  }

  // ----- loading -----

  ghost predicate Loaded(cnf: seq<Clause>, cs: seq<Clause>, units: seq<Lit>, nbVars: nat)
  {
    (forall a: Assignment :: Meets(a, cnf) <==> Solves(a, cs, units))
    && (forall c :: c in cs ==> InRange(c, nbVars)) && (forall u :: u in units ==> u.v < nbVars)
    && units == Singles(cnf) && forall c :: c in cs ==> c in cnf
  }

  // What the simplification says of the clauses it started from, said of the clauses given.
  lemma FromGiven(cnf: seq<Clause>, cs: seq<Clause>, us: seq<Lit>, cs': seq<Clause>, us': seq<Lit>, nbVars: nat)
    requires Loaded(cnf, cs, us, nbVars) && us <= us' && UnitsForced(cs, us', |us|) && AllLeft(cs, cs', us')
    ensures UnitsForced(cnf, us', 0) && AllLeft(cnf, cs', us')
  {
    SinglesGiven(cnf);
    forall i | 0 <= i < |us'| ensures ForcedAt(cnf, us', i) {
      if i < |us| {
        var d := [us'[i]];
        assert us'[i] == us[i] && us[i] in us;
        assert d in cnf && !Tautological(d) && us'[i] in d;
      } else {
        assert ForcedAt(cs, us', i);
      }
    }
    forall c | c in cs' ensures LeftIn(cnf, c, us') {
      assert LeftIn(cs, c, us');
      var d :| d in cs && LeftOf(d, c, us') && (Tautological(d) ==> c == d);
    }
  }

  lemma SinglesForced(cnf: seq<Clause>, cs: seq<Clause>, units: seq<Lit>, nbVars: nat)
    requires Loaded(cnf, cs, units, nbVars)
    ensures UnitsForced(cnf, units, 0)
  {
    SinglesGiven(cnf);
    forall i | 0 <= i < |units| ensures ForcedAt(cnf, units, i) {
      var d := [units[i]];
      assert units[i] in units && d in cnf && !Tautological(d) && units[i] in d;
    }
  }

  // A refutation found by the simplification is one of the clauses given.
  lemma RefutedGiven(cnf: seq<Clause>, cs: seq<Clause>, us: seq<Lit>, us': seq<Lit>, nbVars: nat)
    requires Loaded(cnf, cs, us, nbVars) && us <= us' && UnitsForced(cs, us', |us|) && EmptiedIn(cs, us')
    ensures RefutedBy(cnf, us')
  {
    FromGiven(cnf, cs, us, [], us', nbVars);
    var d :| d in cs && LeftOf(d, [], us');
    assert d in cnf;
  }

  lemma {:induction false} SinglesGiven(cnf: seq<Clause>)
    ensures forall u :: u in Singles(cnf) ==> [u] in cnf
  {
    if cnf != [] {
      var n := |cnf| - 1;
      SinglesGiven(cnf[..n]);
      assert |cnf[n]| == 1 ==> cnf[n] == [cnf[n][0]];
    }
  }

  // The literals of the unit clauses, in order.
  function Singles(cnf: seq<Clause>): seq<Lit>
  {
    if cnf == [] then []
    else var n := |cnf| - 1; Singles(cnf[..n]) + if |cnf[n]| == 1 then [cnf[n][0]] else []
  }

  // What the simplification leaves is what the search engine takes.
  lemma Accepted(cs: seq<Clause>, units: seq<Lit>, m: Model)
    requires UnitsBound(m, units) && forall c :: c in cs ==> Clean(c, m)
    ensures ProblemOk(|m|, cs, units)
  {
    forall u | u in units ensures u.Neg() !in units && u.v < |m| && m[u.v] != 0 {
      assert True(m, u);
    }
    forall i, l | 0 <= i < |cs| && l in cs[i] ensures l.v !in Vars(units) {
      assert Clean(cs[i], m);
    }
    assert forall i :: 0 <= i < |cs| ==> cs[i] in cs;
    assert forall i :: 0 <= i < |units| ==> units[i] in units;
  }

  lemma LoadMore(cnf: seq<Clause>, c: Clause, cs: seq<Clause>, units: seq<Lit>, nbVars: nat)
    requires Loaded(cnf, cs, units, nbVars) && InRange(c, nbVars)
    ensures |c| == 1 ==> Loaded(cnf + [c], cs, units + [c[0]], nbVars)
    ensures |c| >= 2 ==> Loaded(cnf + [c], cs + [c], units, nbVars)
  {
    forall a: Assignment
      ensures |c| == 1 ==> (Meets(a, cnf + [c]) <==> Solves(a, cs, units + [c[0]]))
      ensures |c| >= 2 ==> (Meets(a, cnf + [c]) <==> Solves(a, cs + [c], units))
    {
      MeetsMore(a, cnf, c);
      MeetsMore(a, cs, c);
      if |c| == 1 {
        assert c == [c[0]] && Elems(units + [c[0]]) == Elems(units) + {c[0]};
      }
    }
    assert (cnf + [c])[..|cnf|] == cnf;
  }

  lemma MeetsMore(a: Assignment, cs: seq<Clause>, c: Clause)
    ensures Meets(a, cs + [c]) <==> Meets(a, cs) && Sat(multiset(c), a)
  {
    assert forall d :: d in cs + [c] <==> d in cs || d == c;
  }

  lemma EmptyRefutes(cnf: seq<Clause>, i: nat)
    requires i < |cnf| && cnf[i] == []
    ensures NoModel(cnf, []) && RefutedBy(cnf, [])
  {
    assert cnf[i] in cnf;
    assert LeftOf(cnf[i], [], []);
  }

  lemma Clashing(cnf: seq<Clause>, cs: seq<Clause>, units: seq<Lit>, m: Model, i: nat, nbVars: nat)
    requires Loaded(cnf, cs, units, nbVars) && i < |units| && UnitsBound(m, units[..i]) && False(m, units[i])
    ensures NoModel(cnf, []) && RefutedBy(cnf, units)
  {
    SinglesForced(cnf, cs, units, nbVars);
    assert RefutedBy(cnf, units) by {
      assert True(m, units[i].Neg()) && units[i].Neg() in units[..i];
      assert [units[i]] in cnf && LeftOf([units[i]], [], units) by {
        SinglesGiven(cnf);
        assert units[i] in units;
      }
    }
    forall a: Assignment ensures !Solves(a, cnf, []) {
      assert True(m, units[i].Neg()) && units[i].Neg() in units[..i];
      assert units[i].Neg() in Elems(units) && units[i] in Elems(units);
      assert Holds(units[i], a) != Holds(units[i].Neg(), a);
    }
  }
}
