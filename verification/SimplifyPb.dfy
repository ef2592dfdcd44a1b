// Level-0 simplification of pseudo-boolean problems, in place: simplifyPB (solver/problem.go).
module SimplifyPb {
  import opened Logic
  import opened Bindings
  import opened Linear
  import opened PbClause
  import opened Simplify

  ghost predicate SolvesPb(a: Assignment, cs: seq<Constr>, units: seq<Lit>) { AllMet(cs, a) && AllHold(Elems(units), a) }

  ghost predicate SameSolutions(cs: seq<Constr>, units: seq<Lit>, cs': seq<Constr>, units': seq<Lit>)
  {
    forall a: Assignment :: SolvesPb(a, cs, units) <==> SolvesPb(a, cs', units')
  }

  ghost predicate NoSolution(cs: seq<Constr>, units: seq<Lit>) { forall a: Assignment :: !SolvesPb(a, cs, units) }

  // What a constraint of the problem looks like: weights that are not negative, a positive degree.
  ghost predicate Proper(c: Constr, n: nat) { NonNegative(c.terms) && c.card >= 1 && forall t :: t in c.terms ==> t.l.v < n }

  ghost predicate AllFree(ts: seq<Term>, m: Model) { forall t :: t in ts ==> t.l.v < |m| && m[t.l.v] == 0 }

  ghost predicate AllProper(vs: seq<Constr>, n: nat) { forall v :: v in vs ==> Proper(v, n) }

  // Positive weights on distinct variables.
  ghost predicate Regular(c: Constr) { Positive(c.terms) && VarsApart(c.terms) }

  ghost predicate AllRegular(vs: seq<Constr>) { forall v :: v in vs ==> Regular(v) }

  ghost predicate NoneTwice(units: seq<Lit>) { forall i, j :: 0 <= i < j < |units| ==> units[i] != units[j] }

  // The constraint as ParsePBConstrs reads it: when the weights just reach the degree, all literals, even those of
  // weight 0, are made units.
  ghost function Demanded(c: Constr): Constr
  {
    if c.card > 0 && WeightSum(c.terms) == c.card then Constr(AllOnes(c.terms), |c.terms|) else c
  }

  ghost function AllOnes(ts: seq<Term>): (r: seq<Term>)
    ensures |r| == |ts|
  {
    seq(|ts|, i requires 0 <= i < |ts| => Term(ts[i].l, 1))
  }

  ghost function Demands(cs: seq<Constr>): (r: seq<Constr>)
    ensures |r| == |cs|
  {
    seq(|cs|, i requires 0 <= i < |cs| => Demanded(cs[i]))
  }

  // The fixpoint: no literal of c is bound, and none is forced by the weights.
  ghost predicate Stable(c: Constr, m: Model) { AllFree(c.terms, m) && NothingForced(c) && WeightSum(c.terms) >= c.card }

  // Taking c and the units together means what c' (of degree possibly below 1) and the new units mean.
  ghost predicate Rewrites(c: Constr, units: seq<Lit>, c': Constr, units': seq<Lit>)
  {
    forall a: Assignment ::
      (Met(c, a) && AllHold(Elems(units), a)) <==> (Met(c', a) && AllHold(Elems(units'), a))
  }

  lemma DropTrueTerm(c0: Constr, us0: seq<Lit>, c: Constr, units: seq<Lit>, m: Model, j: nat)
    requires Rewrites(c0, us0, c, units) && UnitsBound(m, units) && j < |c.terms| && True(m, c.terms[j].l)
    ensures Rewrites(c0, us0, Constr(Removed(c.terms, j), c.card - c.terms[j].w), units)
  {
    forall a: Assignment | AllHold(Elems(units), a)
      ensures Met(c, a) <==> Met(Constr(Removed(c.terms, j), c.card - c.terms[j].w), a)
    {
      RemovedSum(c.terms, j, TrueIn(a));
      assert c.terms[j].l in Elems(units);
    }
  }

  lemma DropFalseTerm(c0: Constr, us0: seq<Lit>, c: Constr, units: seq<Lit>, m: Model, j: nat)
    requires Rewrites(c0, us0, c, units) && UnitsBound(m, units) && j < |c.terms| && False(m, c.terms[j].l)
    ensures Rewrites(c0, us0, Constr(Removed(c.terms, j), c.card), units)
  {
    forall a: Assignment | AllHold(Elems(units), a)
      ensures Met(c, a) <==> Met(Constr(Removed(c.terms, j), c.card), a)
    {
      RemovedSum(c.terms, j, TrueIn(a));
      assert True(m, c.terms[j].l.Neg()) && c.terms[j].l.Neg() in Elems(units);
    }
  }

  lemma TakeForced(c0: Constr, us0: seq<Lit>, c: Constr, units: seq<Lit>, j: nat)
    requires Rewrites(c0, us0, c, units) && j < |c.terms| && NonNegative(c.terms)
    requires WeightSum(c.terms) - c.terms[j].w < c.card
    ensures Rewrites(c0, us0, Constr(Removed(c.terms, j), c.card - c.terms[j].w), units + [c.terms[j].l])
  {
    var l := c.terms[j].l;
    var c', units' := Constr(Removed(c.terms, j), c.card - c.terms[j].w), units + [l];
    assert Elems(units') == Elems(units) + {l};
    forall a: Assignment
      ensures (Met(c, a) && AllHold(Elems(units), a)) <==> (Met(c', a) && AllHold(Elems(units'), a))
    {
      RemovedSum(c.terms, j, TrueIn(a));
      if Met(c, a) {
        Forced(c, a, j);
      }
    }
  }

  class Problem {
    const nbVars: nat
    var clauses: seq<WeightedClause>
    var units: seq<Lit>
    var model: Model
    var status: Status

    // ParsePBConstrs (solver/parser_pb.go): drops what always holds, makes units of what needs every literal,
    // keeps the rest sorted by weight, and simplifies.
    constructor ParsePBConstrs(nbVars: nat, constrs: seq<Constr>)
      requires forall c, t :: c in constrs && t in c.terms ==> t.w >= 0 && t.l.v < nbVars
      ensures this.nbVars == nbVars && fresh(clauses)
      ensures status == IsUnsat ==> NoSolution(Demands(constrs), [])
      ensures status != IsUnsat ==> SameSolutions(Demands(constrs), [], Values(clauses), units)
      ensures (forall c :: c in constrs ==> Positive(c.terms)) ==>
                if status == IsUnsat then NoSolution(constrs, []) else SameSolutions(constrs, [], Values(clauses), units)
      ensures status != IsUnsat ==> |model| == nbVars && UnitsBound(model, units) && (status == IsSat <==> clauses == [])
      ensures status != IsUnsat ==> forall k :: 0 <= k < |clauses| ==> Stable(clauses[k].Value(), model)
      ensures status != IsUnsat ==> NoneTwice(units) && AllProper(Values(clauses), nbVars)
      ensures status != IsUnsat && AllRegular(constrs) ==> AllRegular(Values(clauses))
    {
      this.nbVars, clauses, units, status := nbVars, [], [], Indet;
      model := seq(nbVars, _ => 0);
      new;
      hide SameSolutions, NoSolution, UnitsBound, Stable, Apart, AllProper, InUnits, AllRegular, NoneTwice, Demands;
      LoadConstrs(constrs);
      ghost var vs, us := Values(clauses), units;
      if status != IsUnsat {
        BindUnits(Demands(constrs));
      }
      if status != IsUnsat {
        SimplifyPB();
        if status == IsUnsat {
          ChainRefuted(Demands(constrs), [], vs, us);
        } else {
          ChainSame(Demands(constrs), [], vs, us, Values(clauses), units);
        }
      }
      AsMeant(constrs, status == IsUnsat, Values(clauses), units);
    }

    method LoadConstrs(constrs: seq<Constr>)
      requires forall c, t :: c in constrs && t in c.terms ==> t.w >= 0 && t.l.v < nbVars
      requires status == Indet && clauses == [] && units == []
      modifies this`clauses, this`units, this`status
      ensures fresh(clauses) && Apart(clauses) && AllProper(Values(clauses), nbVars) && InUnits(units, nbVars)
      ensures status == IsUnsat ==> NoSolution(Demands(constrs), [])
      ensures status != IsUnsat ==> status == Indet && SameSolutions(Demands(constrs), [], Values(clauses), units)
      ensures NoneTwice(units) && (AllRegular(constrs) ==> AllRegular(Values(clauses)))
    {
      hide SameSolutions, NoSolution, Apart, AllProper, InUnits, AllRegular, NoneTwice, Demands, Regular;
      StartParse(nbVars);
      for i := 0 to |constrs|
        invariant status == Indet && fresh(clauses)
        invariant Apart(clauses) && AllProper(Values(clauses), nbVars) && InUnits(units, nbVars)
        invariant SameSolutions(Demands(constrs[..i]), [], Values(clauses), units)
        invariant NoneTwice(units) && (AllRegular(constrs) ==> AllRegular(Values(clauses)))
      {
        var c := constrs[i];
        assert constrs[..i + 1] == constrs[..i] + [c] && c in constrs;
        DemandsMore(constrs[..i], c);
        ghost var ds := Demands(constrs[..i]);
        if c.card <= 0 {
          AlwaysMet(ds, Values(clauses), units, c);
        } else {
          var sumW := TotalWeight(c.terms);
          if sumW < c.card {
            NeverMet(constrs, c);
            status := IsUnsat;
            return;
          }
          if sumW == c.card {
            ghost var us := units;
            AddMissing(c.terms);
            AllNeeded(ds, Values(clauses), us, c, units);
          } else {
            var sorted := NewPBClause(c.terms, c.card);
            ProperSorted(c, sorted, nbVars);
            var clause := new WeightedClause(sorted.terms, c.card);
            ghost var vs := Values(clauses);
            OneMore(clauses, clause);
            clauses := clauses + [clause];
            assert Values(clauses) == vs + [sorted];
            ProperMore(vs, sorted, nbVars);
            RegularMore(constrs, vs, c, sorted);
            Appended(ds, vs, units, c, sorted);
          }
        }
      }
      assert constrs[..|constrs|] == constrs;
    }

    method BindUnits(ghost constrs: seq<Constr>)
      requires status == Indet && model == seq(nbVars, _ => 0) && InUnits(units, nbVars)
      requires SameSolutions(constrs, [], Values(clauses), units)
      modifies this`model, this`status
      ensures status == IsUnsat ==> NoSolution(constrs, [])
      ensures status != IsUnsat ==> status == Indet && |model| == nbVars && UnitsBound(model, units)
    {
      hide SameSolutions, NoSolution, UnitsBound, InUnits;
      StartParse(nbVars);
      for i := 0 to |units|
        invariant status == Indet && |model| == nbVars && UnitsBound(model, units[..i])
      {
        UnitInRange(units, i, nbVars);
        assert units[..i + 1] == units[..i] + [units[i]];
        if False(model, units[i]) {
          Clash(constrs, Values(clauses), units, model, i);
          status := IsUnsat;
          return;
        }
        BindUnit(model, model[units[i].v := if units[i].pos then 1 else -1], units[..i], units[i]);
        model := model[units[i].v := if units[i].pos then 1 else -1];
      }
      assert units[..|units|] == units;
    }

    method AddMissing(ts: seq<Term>)
      requires InUnits(units, nbVars) && forall t :: t in ts ==> t.l.v < nbVars
      modifies this`units
      ensures InUnits(units, nbVars) && Elems(units) == Elems(old(units)) + LitsOf(ts)
      ensures NoneTwice(old(units)) ==> NoneTwice(units)
    {
      for i := 0 to |ts|
        invariant InUnits(units, nbVars) && Elems(units) == Elems(old(units)) + LitsOf(ts[..i])
        invariant NoneTwice(old(units)) ==> NoneTwice(units)
      {
        assert ts[i] in ts && ts[..i + 1] == ts[..i] + [ts[i]];
        assert LitsOf(ts[..i + 1]) == LitsOf(ts[..i]) + {ts[i].l};
        if ts[i].l !in units {
          assert Elems(units + [ts[i].l]) == Elems(units) + {ts[i].l};
          units := units + [ts[i].l];
        }
      }
      assert ts[..|ts|] == ts;
    }

    // addUnit: binds a literal for good, unless its negation is.
    method AddUnit(lit: Lit)
      requires |model| == nbVars && UnitsBound(model, units) && lit.v < nbVars
      modifies this`model, this`units, this`status
      ensures False(old(model), lit) ==> status == IsUnsat && model == old(model) && units == old(units)
      ensures !False(old(model), lit) ==>
                |model| == nbVars && UnitsBound(model, units) && units == old(units) + [lit] && status == old(status)
    {
      if lit.pos {
        if model[lit.v] == -1 {
          status := IsUnsat;
          return;
        }
        model := model[lit.v := 1];
      } else {
        if model[lit.v] == 1 {
          status := IsUnsat;
          return;
        }
        model := model[lit.v := -1];
      }
      units := units + [lit];
      BindUnit(old(model), model, old(units), lit);
    }

    method ReplicateUnits()
      requires |model| == nbVars && (forall u :: u in units ==> u.v < nbVars && u.Neg() !in units)
      requires (forall v :: 0 <= v < nbVars ==> -1 <= model[v] <= 1) && forall l: Lit :: True(model, l) ==> l in units
      modifies this`model
      ensures |model| == nbVars && UnitsBound(model, units)
    {
      for i := 0 to |units|
        invariant |model| == nbVars && forall v :: 0 <= v < nbVars ==> -1 <= model[v] <= 1
        invariant forall l: Lit :: True(model, l) ==> l in units
        invariant forall k :: 0 <= k < i ==> True(model, units[k])
      {
        var unit := units[i];
        assert unit in units;
        model := model[unit.v := if unit.pos then 1 else -1];
        forall l: Lit | True(model, l) ensures l in units {
          assert l.v == unit.v ==> l == unit;
        }
        forall k | 0 <= k < i ensures True(model, units[k]) {
          assert units[k] in units && unit.Neg() !in units;
        }
      }
    }

    // The inner loop of simplifyPB: removes the bound literals of a constraint and makes units of the forced
    // ones. Returns the true degree left, the sum of the weights left and whether anything changed.
    method SimplifyClause(c: WeightedClause) returns (card: int, wSum: int, modified: bool)
      requires |model| == nbVars && UnitsBound(model, units) && Proper(c.Value(), nbVars) && status == Indet
      modifies c, this`model, this`units, this`status
      ensures |model| == nbVars && UnitsBound(model, units) && status == Indet
      ensures NonNegative(c.terms) && (forall t :: t in c.terms ==> t.l.v < nbVars) && |c.terms| <= |old(c.terms)|
      ensures c.card == Lowered(card, 0) && wSum == WeightSum(c.terms)
      ensures Rewrites(old(c.Value()), old(units), Constr(c.terms, card), units)
      ensures modified ==> |c.terms| < |old(c.terms)|
      ensures !modified ==> c.terms == old(c.terms) && c.card == old(c.card) == card
                            && model == old(model) && units == old(units)
                            && AllFree(c.terms, model) && NothingForced(c.Value())
      ensures Regular(old(c.Value())) ==> Regular(c.Value())
      ensures NoneTwice(old(units)) ==> NoneTwice(units)
    {
      hide UnitsBound, Rewrites, WeightSum, Removed, Elems, Regular, NoneTwice;
      card := c.card;
      wSum := TotalWeight(c.terms);
      modified := false;
      var j := 0;
      RewritesSelf(c.Value(), units);
      while j < |c.terms|
        invariant |model| == nbVars && UnitsBound(model, units) && status == Indet
        invariant NonNegative(c.terms) && (forall t :: t in c.terms ==> t.l.v < nbVars) && j <= |c.terms|
        invariant c.card == Lowered(card, 0) && wSum == WeightSum(c.terms)
        invariant Rewrites(old(c.Value()), old(units), Constr(c.terms, card), units)
        invariant modified ==> |c.terms| < |old(c.terms)|
        invariant (Regular(old(c.Value())) ==> Regular(c.Value())) && (NoneTwice(old(units)) ==> NoneTwice(units))
        invariant !modified ==> c.terms == old(c.terms) && c.card == old(c.card) == card
                                && model == old(model) && units == old(units)
                                && forall k :: 0 <= k < j ==> model[c.terms[k].l.v] == 0 && wSum - c.terms[k].w >= card
        decreases |c.terms| - j
      {
        var t := c.terms[j];
        var lit, w := t.l, t.w;
        assert t in c.terms;
        RemovedElems(c.terms, j);
        RemovedWeight(c.terms, j);
        ghost var v := c.Value();
        RegularRemoved(v, j);
        if model[lit.v] == 0 {
          if wSum - w < card {
            TakeForced(old(c.Value()), old(units), Constr(c.terms, card), units, j);
            NewUnit(model, units, lit);
            AddUnit(lit);
            if status == IsUnsat {
              return;
            }
            c.RemoveLit(j);
            card := card - w;
            c.UpdateCardinality(-w);
            wSum := wSum - w;
            modified := true;
          } else {
            j := j + 1;
          }
        } else {
          wSum := wSum - w;
          UnitSign(model, units, lit);
          if (model[lit.v] == 1) == lit.pos {
            DropTrueTerm(old(c.Value()), old(units), Constr(c.terms, card), units, model, j);
            card := card - w;
            c.UpdateCardinality(-w);
          } else {
            DropFalseTerm(old(c.Value()), old(units), Constr(c.terms, card), units, model, j);
          }
          c.RemoveLit(j);
          modified := true;
        }
      }
    }

    // One more constraint simplified: it is kept, dropped because it holds, or shows there is no solution.
    method SimplifyAt(i: nat) returns (kept: bool, modified: bool)
      requires |model| == nbVars && UnitsBound(model, units) && status == Indet && i < |clauses| && Apart(clauses)
      requires AllProper(Values(clauses), nbVars)
      modifies this, clauses
      ensures status != IsUnsat ==> Apart(clauses) && AllProper(Values(clauses), nbVars)
      ensures status != IsUnsat ==> |model| == nbVars && UnitsBound(model, units) && status == Indet
      ensures status != IsUnsat ==> SameSolutions(old(Values(clauses)), old(units), Values(clauses), units)
      ensures status == IsUnsat ==> NoSolution(old(Values(clauses)), old(units))
      ensures forall k :: 0 <= k < |clauses| ==> clauses[k] in old(clauses)
      ensures status != IsUnsat && kept ==> clauses == old(clauses)
      ensures status != IsUnsat && !kept ==> |clauses| == |old(clauses)| - 1 && modified
      ensures status != IsUnsat && modified ==> Size(Values(clauses)) < old(Size(Values(clauses)))
      ensures status != IsUnsat && AllRegular(old(Values(clauses))) ==> AllRegular(Values(clauses))
      ensures status != IsUnsat && NoneTwice(old(units)) ==> NoneTwice(units)
      ensures status != IsUnsat && !modified ==>
                kept && Values(clauses) == old(Values(clauses)) && model == old(model) && Stable(Values(clauses)[i], model)
    {
      hide UnitsBound, Rewrites, SameSolutions, NoSolution, WeightSum, NothingForced, AllFree, AllProper, Proper, Size, AllRegular,
        Regular, NoneTwice;
      ProperAt(Values(clauses), i, nbVars);
      kept := true;
      ghost var vs, us := Values(clauses), units;
      var c := clauses[i];
      var card, wSum;
      card, wSum, modified := SimplifyClause(c);
      ghost var v' := Constr(c.terms, c.card);
      assert Values(clauses) == vs[i := v'];
      SizeSet(vs, i, v');
      RegularKept(vs, i, v');
      if card <= 0 {
        DropMet(vs, us, i, c.terms, card, units);
        SizeDrop(vs[i := v'], i);
        clauses := clauses[i := clauses[|clauses| - 1]];
        clauses := clauses[..|clauses| - 1];
        kept, modified := false, true;
        DroppedSame(vs, i, v');
        assert Values(clauses) == vs[i := vs[|vs| - 1]][..|vs| - 1];
        ProperDropped(vs, i, nbVars);
      } else if wSum < card {
        Refute(vs, us, i, v', units);
        clauses := [];
        status := IsUnsat;
      } else {
        Substitute(vs, us, i, v', units);
        ProperSet(vs, i, v', nbVars);
      }
    }

    // simplifyPB: the solutions stay the same, and in the end no literal is bound or forced.
    method SimplifyPB()
      requires |model| == nbVars && status == Indet && Apart(clauses)
      requires AllProper(Values(clauses), nbVars)
      requires forall u :: u in units ==> u.v < nbVars && u.Neg() !in units
      requires (forall v :: 0 <= v < nbVars ==> -1 <= model[v] <= 1) && forall l: Lit :: True(model, l) ==> l in units
      modifies this, clauses
      ensures forall k :: 0 <= k < |clauses| ==> clauses[k] in old(clauses)
      ensures status == IsUnsat ==> NoSolution(old(Values(clauses)), old(units))
      ensures status != IsUnsat ==> SameSolutions(old(Values(clauses)), old(units), Values(clauses), units)
      ensures status != IsUnsat ==> |model| == nbVars && UnitsBound(model, units) && (status == IsSat <==> clauses == [])
      ensures status != IsUnsat ==> forall k :: 0 <= k < |clauses| ==> Stable(clauses[k].Value(), model)
      ensures status != IsUnsat ==> AllProper(Values(clauses), nbVars)
      ensures status != IsUnsat && AllRegular(old(Values(clauses))) ==> AllRegular(Values(clauses))
      ensures status != IsUnsat && NoneTwice(old(units)) ==> NoneTwice(units)
    {
      hide UnitsBound, SameSolutions, NoSolution, Stable, AllProper, Apart, Size, AllRegular, NoneTwice;
      ghost var vs0, us0 := Values(clauses), units;
      ReplicateUnits();
      SameStart(vs0, us0);
      var modified := true;
      while modified
        invariant |model| == nbVars && UnitsBound(model, units) && status == Indet
        invariant Apart(clauses) && AllProper(Values(clauses), nbVars)
        invariant forall k :: 0 <= k < |clauses| ==> clauses[k] in old(clauses)
        invariant SameSolutions(vs0, us0, Values(clauses), units)
        invariant (AllRegular(vs0) ==> AllRegular(Values(clauses))) && (NoneTwice(us0) ==> NoneTwice(units))
        invariant !modified ==> forall k :: 0 <= k < |clauses| ==> Stable(Values(clauses)[k], model)
        decreases Size(Values(clauses)), modified
      {
        modified := false;
        ghost var before := Size(Values(clauses));
        var i := 0;
        while i < |clauses|
          invariant |model| == nbVars && UnitsBound(model, units) && status == Indet && i <= |clauses|
          invariant Apart(clauses) && AllProper(Values(clauses), nbVars)
          invariant forall k :: 0 <= k < |clauses| ==> clauses[k] in old(clauses)
          invariant SameSolutions(vs0, us0, Values(clauses), units)
          invariant (AllRegular(vs0) ==> AllRegular(Values(clauses))) && (NoneTwice(us0) ==> NoneTwice(units))
          invariant Size(Values(clauses)) <= before && (modified ==> Size(Values(clauses)) < before)
          invariant !modified ==> forall k :: 0 <= k < i ==> Stable(Values(clauses)[k], model)
          decreases |clauses| - i
        {
          ghost var vs, us := Values(clauses), units;
          var kept, changed := SimplifyAt(i);
          if status == IsUnsat {
            ChainRefuted(vs0, us0, vs, us);
            return;
          }
          ChainSame(vs0, us0, vs, us, Values(clauses), units);
          modified := modified || changed;
          if kept {
            i := i + 1;
          }
        }
      }
      if status == Indet && |clauses| == 0 {
        status := IsSat;
      }
    }
  }

  function Values(cs: seq<WeightedClause>): (vs: seq<Constr>)
    reads cs
    ensures |vs| == |cs| && forall i :: 0 <= i < |cs| ==> vs[i] == cs[i].Value()
  {
    seq(|cs|, i requires 0 <= i < |cs| reads cs => cs[i].Value())
  }

  ghost predicate Apart(cs: seq<WeightedClause>) { forall i, j :: 0 <= i < j < |cs| ==> cs[i] != cs[j] }

  // Literals and constraints together.
  ghost function Size(vs: seq<Constr>): nat
  {
    if vs == [] then 0 else Size(vs[..|vs| - 1]) + |vs[|vs| - 1].terms| + 1
  }

  lemma {:induction false} SizeSet(vs: seq<Constr>, i: nat, c: Constr)
    requires i < |vs|
    ensures Size(vs[i := c]) == Size(vs) - |vs[i].terms| + |c.terms|
  {
    var n := |vs| - 1;
    if i < n {
      assert vs[i := c][..n] == vs[..n][i := c];
      SizeSet(vs[..n], i, c);
    } else {
      assert vs[i := c][..n] == vs[..n];
    }
  }

  lemma SizeDrop(vs: seq<Constr>, i: nat)
    requires i < |vs|
    ensures Size(vs[i := vs[|vs| - 1]][..|vs| - 1]) == Size(vs) - |vs[i].terms| - 1
  {
    var n := |vs| - 1;
    if i < n {
      SizeSet(vs[..n], i, vs[n]);
      assert vs[i := vs[n]][..n] == vs[..n][i := vs[n]];
    } else {
      assert vs[i := vs[n]][..n] == vs[..n];
    }
  }

  lemma ProperAt(vs: seq<Constr>, i: nat, n: nat)
    requires AllProper(vs, n) && i < |vs|
    ensures Proper(vs[i], n)
  {
  }

  lemma ProperSet(vs: seq<Constr>, i: nat, c: Constr, n: nat)
    requires AllProper(vs, n) && i < |vs| && NonNegative(c.terms) && c.card >= 1 && forall t :: t in c.terms ==> t.l.v < n
    ensures AllProper(vs[i := c], n)
  {
  }

  lemma ProperDropped(vs: seq<Constr>, i: nat, n: nat)
    requires AllProper(vs, n) && i < |vs|
    ensures AllProper(vs[i := vs[|vs| - 1]][..|vs| - 1], n)
  {
  }

  lemma NewUnit(m: Model, units: seq<Lit>, l: Lit)
    requires UnitsBound(m, units) && l.v < |m| && m[l.v] == 0
    ensures NoneTwice(units) ==> NoneTwice(units + [l])
  {
    assert l !in units;
  }

  lemma RegularRemoved(c: Constr, j: nat)
    requires Regular(c) ==> j < |c.terms|
    ensures j < |c.terms| && Regular(c) ==> forall card :: Regular(Constr(Removed(c.terms, j), card))
  {
    if j < |c.terms| && Regular(c) {
      RemovedElems(c.terms, j);
      var r := Removed(c.terms, j);
      assert forall k :: 0 <= k < |r| ==> r[k] == c.terms[if k == j then |r| else k];
      assert VarsApart(r) && Positive(r);
    }
  }

  // What is left after constraint i became c, and after it was dropped.
  lemma RegularKept(vs: seq<Constr>, i: nat, c: Constr)
    requires i < |vs| && (Regular(vs[i]) ==> Regular(c))
    ensures AllRegular(vs) ==> AllRegular(vs[i := c]) && AllRegular(vs[i := vs[|vs| - 1]][..|vs| - 1])
  {
    assert vs[i] in vs;
  }

  lemma RegularPermuted(ts: seq<Term>, us: seq<Term>)
    requires Positive(ts) && VarsApart(ts) && multiset(us) == multiset(ts)
    ensures Positive(us) && VarsApart(us)
  {
    ApartPermuted(ts, us);
    assert forall t :: t in us ==> t in multiset(us);
  }

  lemma RegularMore(cs: seq<Constr>, vs: seq<Constr>, c: Constr, d: Constr)
    requires c in cs && multiset(d.terms) == multiset(c.terms)
    ensures AllRegular(cs) && AllRegular(vs) ==> AllRegular(vs + [d])
  {
    if Regular(c) {
      RegularPermuted(c.terms, d.terms);
    }
  }

  // ----- constraints that need every literal -----

  lemma DemandsMore(cs: seq<Constr>, c: Constr)
    ensures Demands(cs + [c]) == Demands(cs) + [Demanded(c)]
  {
  }

  lemma {:induction false} OnesSum(ts: seq<Term>, a: Assignment)
    ensures TrueSum(AllOnes(ts), a) <= |ts| && (TrueSum(AllOnes(ts), a) == |ts| <==> AllHold(LitsOf(ts), a))
  {
    if ts != [] {
      var n := |ts| - 1;
      OnesSum(ts[..n], a);
      assert AllOnes(ts)[..n] == AllOnes(ts[..n]);
      assert ts == ts[..n] + [ts[n]];
      assert LitsOf(ts) == LitsOf(ts[..n]) + {ts[n].l};
    }
  }

  // Asking for every literal asks too much exactly when one of them has weight 0.
  lemma DemandedExact(c: Constr)
    requires NonNegative(c.terms) && VarsApart(c.terms) && c.card > 0 && WeightSum(c.terms) == c.card
    ensures (forall a: Assignment :: Met(Demanded(c), a) <==> Met(c, a)) <==> Positive(c.terms)
  {
    if Positive(c.terms) {
      forall a: Assignment ensures Met(Demanded(c), a) <==> Met(c, a) {
        DemandedPositive(c, a);
      }
    } else {
      var t :| t in c.terms && t.w <= 0;
      var i :| 0 <= i < |c.terms| && c.terms[i] == t;
      NotForced(c, i);
      var a: Assignment :| Met(c, a) && !Holds(c.terms[i].l, a);
      OnesSum(c.terms, a);
      assert c.terms[i].l in LitsOf(c.terms);
    }
  }

  lemma DemandedPositive(c: Constr, a: Assignment)
    requires Positive(c.terms)
    ensures Met(Demanded(c), a) <==> Met(c, a)
  {
    if c.card > 0 && WeightSum(c.terms) == c.card {
      OnesSum(c.terms, a);
      if Met(c, a) {
        forall t | t in c.terms ensures Holds(t.l, a) {
          var i :| 0 <= i < |c.terms| && c.terms[i] == t;
          Forced(c, a, i);
        }
      }
      if AllHold(LitsOf(c.terms), a) {
        forall t | t in c.terms ensures TrueIn(a)(t) == Weights()(t) {
          assert t.l in LitsOf(c.terms);
        }
        SumAgree(c.terms, TrueIn(a), Weights());
      }
    }
  }

  // Positive weights are read as they are meant.
  lemma DemandsPositive(cs: seq<Constr>)
    requires forall c :: c in cs ==> Positive(c.terms)
    ensures SameSolutions(Demands(cs), [], cs, [])
  {
    forall a: Assignment ensures AllMet(Demands(cs), a) <==> AllMet(cs, a) {
      forall i | 0 <= i < |cs| ensures Met(Demands(cs)[i], a) <==> Met(cs[i], a) {
        assert cs[i] in cs;
        DemandedPositive(cs[i], a);
      }
      if AllMet(Demands(cs), a) {
        forall c | c in cs ensures Met(c, a) {
          var i :| 0 <= i < |cs| && cs[i] == c;
          assert Demands(cs)[i] in Demands(cs);
        }
      }
      if AllMet(cs, a) {
        forall i | 0 <= i < |cs| ensures Met(Demands(cs)[i], a) {
          assert cs[i] in cs;
        }
      }
    }
  }

  lemma AsMeant(cs: seq<Constr>, unsat: bool, vs: seq<Constr>, us: seq<Lit>)
    requires if unsat then NoSolution(Demands(cs), []) else SameSolutions(Demands(cs), [], vs, us)
    ensures (forall c :: c in cs ==> Positive(c.terms)) ==> if unsat then NoSolution(cs, []) else SameSolutions(cs, [], vs, us)
  {
    if forall c :: c in cs ==> Positive(c.terms) {
      DemandsPositive(cs);
    }
  }

  lemma DroppedSame(vs: seq<Constr>, i: nat, c: Constr)
    requires i < |vs|
    ensures var n := |vs| - 1; vs[i := c][i := vs[i := c][n]][..n] == vs[i := vs[n]][..n]
  {
  }

  lemma SameStart(vs: seq<Constr>, us: seq<Lit>)
    ensures SameSolutions(vs, us, vs, us)
  {
  }

  lemma ChainSame(vs0: seq<Constr>, us0: seq<Lit>, vs1: seq<Constr>, us1: seq<Lit>, vs2: seq<Constr>, us2: seq<Lit>)
    requires SameSolutions(vs0, us0, vs1, us1) && SameSolutions(vs1, us1, vs2, us2)
    ensures SameSolutions(vs0, us0, vs2, us2)
  {
  }

  lemma ChainRefuted(vs0: seq<Constr>, us0: seq<Lit>, vs: seq<Constr>, us: seq<Lit>)
    requires SameSolutions(vs0, us0, vs, us) && NoSolution(vs, us)
    ensures NoSolution(vs0, us0)
  {
  }

  lemma AllButOne(vs: seq<Constr>, i: nat, c: Constr, a: Assignment)
    requires i < |vs|
    ensures AllMet(vs[i := c], a) <==> Met(c, a) && forall k :: 0 <= k < |vs| && k != i ==> Met(vs[k], a)
  {
    var ws := vs[i := c];
    assert ws[i] == c && forall k :: 0 <= k < |vs| && k != i ==> ws[k] == vs[k];
    if AllMet(ws, a) {
      forall k | 0 <= k < |vs| && k != i ensures Met(vs[k], a) {
        assert ws[k] in ws;
      }
      assert ws[i] in ws;
    }
  }

  lemma Substitute(vs: seq<Constr>, us: seq<Lit>, i: nat, c: Constr, us': seq<Lit>)
    requires i < |vs| && Rewrites(vs[i], us, c, us')
    ensures SameSolutions(vs, us, vs[i := c], us')
  {
    forall a: Assignment ensures SolvesPb(a, vs, us) <==> SolvesPb(a, vs[i := c], us') {
      AllButOne(vs, i, c, a);
      AllButOne(vs, i, vs[i], a);
      assert vs[i := vs[i]] == vs;
    }
  }

  lemma Refute(vs: seq<Constr>, us: seq<Lit>, i: nat, c: Constr, us': seq<Lit>)
    requires i < |vs| && Rewrites(vs[i], us, c, us') && NonNegative(c.terms) && WeightSum(c.terms) < c.card
    ensures NoSolution(vs, us)
  {
    forall a: Assignment ensures !SolvesPb(a, vs, us) {
      SumMono(c.terms, TrueIn(a), Weights());
      assert !Met(c, a);
      assert vs[i] in vs;
    }
  }

  lemma DropMet(vs: seq<Constr>, us: seq<Lit>, i: nat, ts: seq<Term>, card: int, us': seq<Lit>)
    requires i < |vs| && Rewrites(vs[i], us, Constr(ts, card), us') && NonNegative(ts) && card <= 0
    ensures SameSolutions(vs, us, vs[i := vs[|vs| - 1]][..|vs| - 1], us')
  {
    var n := |vs| - 1;
    var ws := vs[i := vs[n]][..n];
    forall a: Assignment ensures SolvesPb(a, vs, us) <==> SolvesPb(a, ws, us') {
      SumNonNegative(ts, TrueIn(a));
      AllButOne(vs, i, vs[i], a);
      assert vs[i := vs[i]] == vs;
      assert AllMet(ws, a) <==> forall k :: 0 <= k < |vs| && k != i ==> Met(vs[k], a) by {
        assert forall k :: 0 <= k < n ==> ws[k] == if k == i then vs[n] else vs[k];
        if AllMet(ws, a) {
          forall k | 0 <= k < |vs| && k != i ensures Met(vs[k], a) {
            assert k < n ==> ws[k] in ws;
            assert k == n ==> ws[i] in ws;
          }
        }
      }
    }
  }

  // ----- loading -----

  ghost predicate InUnits(units: seq<Lit>, n: nat) { forall u :: u in units ==> u.v < n }

  lemma StartParse(n: nat)
    ensures SameSolutions([], [], [], []) && InUnits([], n) && AllProper([], n) && Apart([])
    ensures UnitsBound(seq(n, _ => 0), []) && NoneTwice([]) && AllRegular([])
  {
  }

  lemma MetMore(cs: seq<Constr>, c: Constr, a: Assignment)
    ensures AllMet(cs + [c], a) <==> AllMet(cs, a) && Met(c, a)
  {
    assert forall d :: d in cs + [c] <==> d in cs || d == c;
  }

  lemma AlwaysMet(cs: seq<Constr>, vs: seq<Constr>, us: seq<Lit>, c: Constr)
    requires SameSolutions(cs, [], vs, us) && NonNegative(c.terms) && c.card <= 0
    ensures SameSolutions(cs + [Demanded(c)], [], vs, us)
  {
    forall a: Assignment ensures SolvesPb(a, cs + [c], []) <==> SolvesPb(a, vs, us) {
      assert SolvesPb(a, cs, []) <==> SolvesPb(a, vs, us);
      MetMore(cs, c, a);
      SumNonNegative(c.terms, TrueIn(a));
    }
  }

  lemma NeverMet(cs: seq<Constr>, c: Constr)
    requires c in cs && NonNegative(c.terms) && WeightSum(c.terms) < c.card
    ensures NoSolution(Demands(cs), [])
  {
    var i :| 0 <= i < |cs| && cs[i] == c;
    assert Demands(cs)[i] == c;
    forall a: Assignment ensures !SolvesPb(a, Demands(cs), []) {
      SumMono(c.terms, TrueIn(a), Weights());
      assert c in Demands(cs) && !Met(c, a);
    }
  }

  lemma AllNeeded(cs: seq<Constr>, vs: seq<Constr>, us: seq<Lit>, c: Constr, us': seq<Lit>)
    requires SameSolutions(cs, [], vs, us) && c.card > 0 && WeightSum(c.terms) == c.card
    requires Elems(us') == Elems(us) + LitsOf(c.terms)
    ensures SameSolutions(cs + [Demanded(c)], [], vs, us')
  {
    forall a: Assignment ensures SolvesPb(a, cs + [Demanded(c)], []) <==> SolvesPb(a, vs, us') {
      assert SolvesPb(a, cs, []) <==> SolvesPb(a, vs, us);
      MetMore(cs, Demanded(c), a);
      OnesSum(c.terms, a);
      assert AllHold(Elems(us'), a) <==> AllHold(Elems(us), a) && AllHold(LitsOf(c.terms), a);
    }
  }

  lemma ProperSorted(c: Constr, d: Constr, n: nat)
    requires NonNegative(c.terms) && c.card >= 1 && d.card == c.card && multiset(d.terms) == multiset(c.terms)
    requires forall t :: t in c.terms ==> t.l.v < n
    ensures Proper(d, n)
  {
    assert forall t :: t in d.terms ==> t in multiset(c.terms);
  }

  lemma ProperMore(vs: seq<Constr>, c: Constr, n: nat)
    requires AllProper(vs, n) && Proper(c, n)
    ensures AllProper(vs + [c], n)
  {
  }

  lemma OneMore(cs: seq<WeightedClause>, c: WeightedClause)
    requires Apart(cs) && c !in cs
    ensures Apart(cs + [c])
  {
  }

  lemma Appended(cs: seq<Constr>, vs: seq<Constr>, us: seq<Lit>, c: Constr, d: Constr)
    requires SameSolutions(cs, [], vs, us) && WeightSum(c.terms) != c.card
    requires forall a: Assignment :: Met(d, a) <==> Met(c, a)
    ensures SameSolutions(cs + [Demanded(c)], [], vs + [d], us)
  {
    forall a: Assignment ensures SolvesPb(a, cs + [c], []) <==> SolvesPb(a, vs + [d], us) {
      assert SolvesPb(a, cs, []) <==> SolvesPb(a, vs, us);
      MetMore(cs, c, a);
      MetMore(vs, d, a);
    }
  }

  lemma UnitInRange(us: seq<Lit>, i: nat, n: nat)
    requires InUnits(us, n) && i < |us|
    ensures us[i].v < n
  {
  }

  lemma Clash(cs: seq<Constr>, vs: seq<Constr>, us: seq<Lit>, m: Model, i: nat)
    requires SameSolutions(cs, [], vs, us) && i < |us| && UnitsBound(m, us[..i]) && False(m, us[i])
    ensures NoSolution(cs, [])
  {
    forall a: Assignment ensures !SolvesPb(a, cs, []) {
      assert True(m, us[i].Neg()) && us[i].Neg() in us[..i];
      assert us[i].Neg() in Elems(us) && us[i] in Elems(us);
      assert Holds(us[i], a) != Holds(us[i].Neg(), a);
    }
  }

  lemma RemovedWeight(ts: seq<Term>, j: nat)
    requires j < |ts|
    ensures WeightSum(Removed(ts, j)) == WeightSum(ts) - ts[j].w
  {
    RemovedSum(ts, j, Weights());
  }

  lemma RewritesSelf(c: Constr, units: seq<Lit>)
    ensures Rewrites(c, units, c, units)
  {
  }

  lemma UnitSign(m: Model, units: seq<Lit>, l: Lit)
    requires UnitsBound(m, units) && l.v < |m| && m[l.v] != 0
    ensures if (m[l.v] == 1) == l.pos then True(m, l) else False(m, l)
  {
  }
}
