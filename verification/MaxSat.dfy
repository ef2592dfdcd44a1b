// Partial weighted MaxSAT by relaxation (maxsat/problem.go): each soft constraint gets a blocking literal that
// satisfies it at the price of its weight.
module MaxSat {
  import opened Logic
  import opened Bindings
  import opened Linear
  import P = PbConstr
  import S = SimplifyPb
  import Simplify
  import O = Optimize

  datatype NamedLit = NamedLit(name: string, negated: bool)

  // A constraint over named literals: hard when its weight is 0. No coefficients means 1 for each literal.
  datatype MaxConstr = MaxConstr(lits: seq<NamedLit>, coeffs: seq<int>, atLeast: int, weight: int)

  type Naming = string -> bool

  predicate NamedHolds(l: NamedLit, a: Naming) { a(l.name) != l.negated }

  function Coeff(c: MaxConstr, i: nat): int
    requires i < |c.lits| && (c.coeffs == [] || |c.coeffs| == |c.lits|)
  {
    if c.coeffs == [] then 1 else c.coeffs[i]
  }

  predicate WellFormed(c: MaxConstr) { c.coeffs == [] || |c.coeffs| == |c.lits| }

  // The sum of the first k literals that hold.
  function Reached(c: MaxConstr, a: Naming, k: nat): int
    requires WellFormed(c) && k <= |c.lits|
  {
    if k == 0 then 0 else Reached(c, a, k - 1) + if NamedHolds(c.lits[k - 1], a) then Coeff(c, k - 1) else 0
  }

  predicate Satisfied(c: MaxConstr, a: Naming)
    requires WellFormed(c)
  {
    Reached(c, a, |c.lits|) >= c.atLeast
  }

  ghost predicate AllWellFormed(cs: seq<MaxConstr>) { forall c :: c in cs ==> WellFormed(c) }

  ghost predicate HardMet(cs: seq<MaxConstr>, a: Naming)
    requires AllWellFormed(cs)
  {
    forall c :: c in cs && c.weight == 0 ==> Satisfied(c, a)
  }

  // The weight of the soft constraints that a violates.
  function Violated(cs: seq<MaxConstr>, a: Naming): int
    requires AllWellFormed(cs)
  {
    if cs == [] then 0
    else
      var n := |cs| - 1;
      Violated(cs[..n], a) + if cs[n].weight != 0 && !Satisfied(cs[n], a) then cs[n].weight else 0
  }

  predicate Weighted(c: MaxConstr) { WellFormed(c) && c.weight >= 0 }

  // No sum of the first k literals is lower.
  function Lowest(c: MaxConstr, k: nat): int
    requires WellFormed(c) && k <= |c.lits|
  {
    if k == 0 then 0 else Lowest(c, k - 1) + if Coeff(c, k - 1) < 0 then Coeff(c, k - 1) else 0
  }

  // The coefficient of the blocking literal.
  function BlockCoeff(c: MaxConstr): int { if c.coeffs == [] then 1 else c.atLeast }

  // When the relaxation means what it should: where a soft constraint can be violated at all, its blocking literal
  // makes up even for the lowest sum.
  predicate Relaxable(c: MaxConstr)
  {
    Weighted(c)
    && (c.weight > 0 ==>
          Lowest(c, |c.lits|) >= c.atLeast || Lowest(c, |c.lits|) + BlockCoeff(c) >= c.atLeast)
  }

  // ----- the relaxed constraint -----

  type Numbers = map<string, nat>

  // What an assignment of the numbers makes of the names.
  function NamesOf(vars: Numbers, s: Assignment): Naming { name => name in vars && s(vars[name]) }

  // By how much s meets the relaxed constraint, block being its blocking variable.
  function Gap(c: MaxConstr, vars: Numbers, block: Option<nat>, s: Assignment): int
    requires WellFormed(c)
  {
    Reached(c, NamesOf(vars, s), |c.lits|) - c.atLeast + if block.Some? && s(block.value) then BlockCoeff(c) else 0
  }

  ghost predicate Names(c: MaxConstr, vars: Numbers) { forall l :: l in c.lits ==> l.name in vars }

  // The terms of the relaxed constraint before normalisation.
  function Terms(c: MaxConstr, vars: Numbers, k: nat): seq<Term>
    requires WellFormed(c) && k <= |c.lits| && forall i :: 0 <= i < k ==> c.lits[i].name in vars
  {
    if k == 0 then []
    else Terms(c, vars, k - 1) + [Term(Lit(vars[c.lits[k - 1].name], !c.lits[k - 1].negated), Coeff(c, k - 1))]
  }

  lemma {:induction false} TermsSum(c: MaxConstr, vars: Numbers, k: nat, s: Assignment)
    requires WellFormed(c) && k <= |c.lits| && forall i :: 0 <= i < k ==> c.lits[i].name in vars
    ensures TrueSum(Terms(c, vars, k), s) == Reached(c, NamesOf(vars, s), k)
  {
    if k > 0 {
      TermsSum(c, vars, k - 1, s);
      var t := Term(Lit(vars[c.lits[k - 1].name], !c.lits[k - 1].negated), Coeff(c, k - 1));
      SumConcat(Terms(c, vars, k - 1), [t], TrueIn(s));
      assert Sum([t], TrueIn(s)) == TrueIn(s)(t) by {
        assert [t][..0] == [];
      }
    }
  }

  lemma BlockedSum(ts: seq<Term>, block: nat, w: int, s: Assignment)
    ensures TrueSum(ts + [Term(Lit(block, true), w)], s) == TrueSum(ts, s) + if s(block) then w else 0
  {
    var t := Term(Lit(block, true), w);
    SumConcat(ts, [t], TrueIn(s));
    assert [t][..0] == [];
    assert Sum([t], TrueIn(s)) == TrueIn(s)(t);
  }

  // d is c relaxed by block: the same gap for every assignment.
  ghost predicate Relaxes(d: Constr, c: MaxConstr, vars: Numbers, block: Option<nat>)
    requires WellFormed(c)
  {
    forall s: Assignment :: TrueSum(d.terms, s) - d.card == Gap(c, vars, block, s)
  }

  // Numbering more names does not change a constraint already numbered.
  lemma {:induction false} ReachedSame(c: MaxConstr, vars: Numbers, vars': Numbers, s: Assignment, k: nat)
    requires WellFormed(c) && k <= |c.lits| && Names(c, vars) && forall n :: n in vars ==> n in vars' && vars'[n] == vars[n]
    ensures Reached(c, NamesOf(vars, s), k) == Reached(c, NamesOf(vars', s), k)
  {
    if k > 0 {
      ReachedSame(c, vars, vars', s, k - 1);
      assert c.lits[k - 1] in c.lits;
    }
  }

  // ----- the relaxed problem -----

  // Names and blocking variables have numbers of their own below n.
  ghost predicate Numbered(vars: Numbers, blocks: seq<Option<nat>>, n: nat)
  {
    (forall x :: x in vars ==> vars[x] < n) && (forall x, y :: x in vars && y in vars && x != y ==> vars[x] != vars[y])
    && (forall i :: 0 <= i < |blocks| && blocks[i].Some? ==> blocks[i].value < n)
    && (forall i, x :: 0 <= i < |blocks| && blocks[i].Some? && x in vars ==> blocks[i].value != vars[x])
    && forall i, j :: 0 <= i < j < |blocks| && blocks[i].Some? && blocks[j].Some? ==> blocks[i].value != blocks[j].value
  }

  // Each constraint has been relaxed, by a blocking variable exactly when it is soft.
  ghost predicate Built(cs: seq<MaxConstr>, ds: seq<Constr>, vars: Numbers, blocks: seq<Option<nat>>)
  {
    |cs| == |ds| == |blocks| && forall i :: 0 <= i < |cs| ==>
      WellFormed(cs[i]) && Names(cs[i], vars) && Relaxes(ds[i], cs[i], vars, blocks[i]) && (blocks[i].Some? <==> cs[i].weight != 0)
  }

  // The cost function: the weight of each blocking literal.
  function Costs(cs: seq<MaxConstr>, blocks: seq<Option<nat>>): seq<Term>
    requires |cs| == |blocks|
  {
    if cs == [] then []
    else
      var n := |cs| - 1;
      Costs(cs[..n], blocks[..n])
      + match blocks[n] case Some(b) => [Term(Lit(b, true), cs[n].weight)] case None => []
  }

  lemma {:induction false} CostBound(cs: seq<MaxConstr>, ds: seq<Constr>, vars: Numbers, blocks: seq<Option<nat>>, s: Assignment)
    requires Built(cs, ds, vars, blocks) && AllMet(ds, s) && forall i :: 0 <= i < |cs| ==> Weighted(cs[i])
    ensures AllWellFormed(cs)
    ensures TrueSum(Costs(cs, blocks), s) >= Violated(cs, NamesOf(vars, s))
  {
    if cs != [] {
      var n := |cs| - 1;
      assert forall c :: c in ds[..n] ==> c in ds;
      CostBound(cs[..n], ds[..n], vars, blocks[..n], s);
      assert ds[n] in ds && Relaxes(ds[n], cs[n], vars, blocks[n]) && Weighted(cs[n]);
      CostNext(cs, blocks, s);
      hide Costs, Sum;
      if blocks[n].Some? && !Satisfied(cs[n], NamesOf(vars, s)) {
        BlockTrue(cs[n], ds[n], vars, blocks[n].value, s);
      }
    }
  }

  lemma CostNext(cs: seq<MaxConstr>, blocks: seq<Option<nat>>, s: Assignment)
    requires |cs| == |blocks| > 0
    ensures var n := |cs| - 1;
            TrueSum(Costs(cs, blocks), s)
            == TrueSum(Costs(cs[..n], blocks[..n]), s) + if blocks[n].Some? && s(blocks[n].value) then cs[n].weight else 0
  {
    hide Sum;
    var n := |cs| - 1;
    if blocks[n].Some? {
      BlockedSum(Costs(cs[..n], blocks[..n]), blocks[n].value, cs[n].weight, s);
    } else {
      assert Costs(cs, blocks) == Costs(cs[..n], blocks[..n]);
    }
  }

  // A solution that violates a soft constraint has its blocking variable true.
  lemma BlockTrue(c: MaxConstr, d: Constr, vars: Numbers, block: nat, s: Assignment)
    requires WellFormed(c) && Names(c, vars) && Relaxes(d, c, vars, Some(block)) && Met(d, s)
    requires !Satisfied(c, NamesOf(vars, s))
    ensures s(block)
  {
  }

  // Every solution of the relaxed problem meets the hard constraints and costs at least what it violates.
  lemma RelaxedSound(cs: seq<MaxConstr>, ds: seq<Constr>, vars: Numbers, blocks: seq<Option<nat>>, s: Assignment)
    requires Built(cs, ds, vars, blocks) && AllMet(ds, s) && forall i :: 0 <= i < |cs| ==> Weighted(cs[i])
    ensures AllWellFormed(cs) && HardMet(cs, NamesOf(vars, s))
    ensures TrueSum(Costs(cs, blocks), s) >= Violated(cs, NamesOf(vars, s))
  {
    CostBound(cs, ds, vars, blocks, s);
    forall c | c in cs && c.weight == 0 ensures Satisfied(c, NamesOf(vars, s)) {
      var i :| 0 <= i < |cs| && cs[i] == c;
      assert ds[i] in ds && Relaxes(ds[i], c, vars, blocks[i]);
    }
  }

  // The numbers of the names take their values from a, and a blocking variable is true when its constraint is
  // violated.
  ghost function Relaxing(cs: seq<MaxConstr>, vars: Numbers, blocks: seq<Option<nat>>, a: Naming): Assignment
    requires |cs| == |blocks| && AllWellFormed(cs)
  {
    (v: nat) => (exists x :: x in vars && vars[x] == v && a(x))
                || exists i :: 0 <= i < |cs| && blocks[i] == Some(v) && !Satisfied(cs[i], a)
  }

  lemma RelaxingNames(cs: seq<MaxConstr>, vars: Numbers, blocks: seq<Option<nat>>, a: Naming, n: nat)
    requires |cs| == |blocks| && AllWellFormed(cs) && Numbered(vars, blocks, n)
    ensures forall x :: x in vars ==> (Relaxing(cs, vars, blocks, a)(vars[x]) <==> a(x))
    ensures forall i :: 0 <= i < |cs| && blocks[i].Some? ==>
              (Relaxing(cs, vars, blocks, a)(blocks[i].value) <==> !Satisfied(cs[i], a))
  {
    forall i | 0 <= i < |cs| && blocks[i].Some?
      ensures Relaxing(cs, vars, blocks, a)(blocks[i].value) <==> !Satisfied(cs[i], a)
    {
      forall j | 0 <= j < |cs| && blocks[j] == Some(blocks[i].value) ensures j == i {
        assert i < j || j < i || i == j;
      }
    }
  }

  lemma {:induction false} ReachedAgrees(c: MaxConstr, a: Naming, a': Naming, k: nat)
    requires WellFormed(c) && k <= |c.lits| && forall l :: l in c.lits ==> a(l.name) == a'(l.name)
    ensures Reached(c, a, k) == Reached(c, a', k)
  {
    if k > 0 {
      assert c.lits[k - 1] in c.lits;
      ReachedAgrees(c, a, a', k - 1);
    }
  }

  lemma {:induction false} ReachedLowest(c: MaxConstr, a: Naming, k: nat)
    requires WellFormed(c) && k <= |c.lits|
    ensures Reached(c, a, k) >= Lowest(c, k)
  {
    if k > 0 {
      ReachedLowest(c, a, k - 1);
    }
  }

  lemma RelaxedOne(c: MaxConstr, d: Constr, vars: Numbers, block: Option<nat>, a: Naming, s: Assignment)
    requires Relaxable(c) && Relaxes(d, c, vars, block) && Names(c, vars) && (block.Some? <==> c.weight != 0)
    requires forall x :: x in vars ==> (s(vars[x]) <==> a(x))
    requires block.Some? ==> (s(block.value) <==> !Satisfied(c, a))
    requires c.weight == 0 ==> Satisfied(c, a)
    ensures Met(d, s)
  {
    ReachedAgrees(c, NamesOf(vars, s), a, |c.lits|);
    if c.weight != 0 {
      ReachedLowest(c, a, |c.lits|);
    }
    assert TrueSum(d.terms, s) - d.card == Gap(c, vars, block, s);
  }

  lemma {:induction false} CostExact(cs: seq<MaxConstr>, blocks: seq<Option<nat>>, a: Naming, s: Assignment)
    requires |cs| == |blocks| && AllWellFormed(cs)
    requires forall i :: 0 <= i < |cs| ==> (blocks[i].Some? <==> cs[i].weight != 0)
    requires forall i :: 0 <= i < |cs| && blocks[i].Some? ==> (s(blocks[i].value) <==> !Satisfied(cs[i], a))
    ensures TrueSum(Costs(cs, blocks), s) == Violated(cs, a)
  {
    if cs != [] {
      var n := |cs| - 1;
      CostExact(cs[..n], blocks[..n], a, s);
      if blocks[n].Some? {
        BlockedSum(Costs(cs[..n], blocks[..n]), blocks[n].value, cs[n].weight, s);
      } else {
        assert Costs(cs, blocks) == Costs(cs[..n], blocks[..n]);
      }
    }
  }

  // Every assignment that meets the hard constraints has a solution that costs just what it violates.
  lemma RelaxedComplete(cs: seq<MaxConstr>, ds: seq<Constr>, vars: Numbers, blocks: seq<Option<nat>>, n: nat, a: Naming)
    requires Built(cs, ds, vars, blocks) && Numbered(vars, blocks, n) && forall i :: 0 <= i < |cs| ==> Relaxable(cs[i])
    requires AllWellFormed(cs) && HardMet(cs, a)
    ensures var s := Relaxing(cs, vars, blocks, a); AllMet(ds, s) && TrueSum(Costs(cs, blocks), s) == Violated(cs, a)
  {
    var s := Relaxing(cs, vars, blocks, a);
    RelaxingNames(cs, vars, blocks, a, n);
    hide Relaxing;
    forall d | d in ds ensures Met(d, s) {
      var i :| 0 <= i < |ds| && ds[i] == d;
      assert cs[i] in cs;
      RelaxedOne(cs[i], d, vars, blocks[i], a, s);
    }
    CostExact(cs, blocks, a, s);
  }

  // ----- the problem as an object -----

  lemma BuiltGrows(cs: seq<MaxConstr>, ds: seq<Constr>, vars: Numbers, vars': Numbers, blocks: seq<Option<nat>>)
    requires Built(cs, ds, vars, blocks) && forall n :: n in vars ==> n in vars' && vars'[n] == vars[n]
    ensures Built(cs, ds, vars', blocks)
  {
    forall i | 0 <= i < |cs| ensures Relaxes(ds[i], cs[i], vars', blocks[i]) {
      forall s: Assignment ensures TrueSum(ds[i].terms, s) - ds[i].card == Gap(cs[i], vars', blocks[i], s) {
        ReachedSame(cs[i], vars, vars', s, |cs[i].lits|);
        assert Relaxes(ds[i], cs[i], vars, blocks[i]);
      }
    }
  }

  lemma BuiltMore(cs: seq<MaxConstr>, ds: seq<Constr>, vars: Numbers, blocks: seq<Option<nat>>, c: MaxConstr, d: Constr,
                  block: Option<nat>)
    requires Built(cs, ds, vars, blocks) && WellFormed(c) && Names(c, vars) && Relaxes(d, c, vars, block)
    requires block.Some? <==> c.weight != 0
    ensures Built(cs + [c], ds + [d], vars, blocks + [block])
    ensures Costs(cs + [c], blocks + [block])
         == Costs(cs, blocks) + match block case Some(b) => [Term(Lit(b, true), c.weight)] case None => []
  {
    assert (cs + [c])[..|cs|] == cs && (blocks + [block])[..|blocks|] == blocks;
  }

  // Terms of the relaxed constraint, the blocking literal last.
  function RelaxedTerms(c: MaxConstr, vars: Numbers, block: Option<nat>): seq<Term>
    requires WellFormed(c) && forall i :: 0 <= i < |c.lits| ==> c.lits[i].name in vars
  {
    Terms(c, vars, |c.lits|) + match block case Some(b) => [Term(Lit(b, true), BlockCoeff(c))] case None => []
  }

  lemma RelaxedTermsGap(c: MaxConstr, vars: Numbers, block: Option<nat>, s: Assignment)
    requires WellFormed(c) && forall i :: 0 <= i < |c.lits| ==> c.lits[i].name in vars
    ensures TrueSum(RelaxedTerms(c, vars, block), s) - c.atLeast == Gap(c, vars, block, s)
  {
    TermsSum(c, vars, |c.lits|, s);
    if block.Some? {
      BlockedSum(Terms(c, vars, |c.lits|), block.value, BlockCoeff(c), s);
    } else {
      assert RelaxedTerms(c, vars, block) == Terms(c, vars, |c.lits|);
    }
  }

  lemma {:induction false} TermVars(c: MaxConstr, vars: Numbers, k: nat, n: nat)
    requires WellFormed(c) && k <= |c.lits| && forall i :: 0 <= i < k ==> c.lits[i].name in vars
    requires forall x :: x in vars ==> vars[x] < n
    ensures forall t :: t in Terms(c, vars, k) ==> t.l.v < n
  {
    if k > 0 {
      TermVars(c, vars, k - 1, n);
    }
  }

  ghost predicate Usable(ds: seq<Constr>, n: nat) { forall d, t :: d in ds && t in d.terms ==> t.w > 0 && t.l.v < n }

  ghost predicate Priced(ts: seq<Term>, n: nat) { forall t :: t in ts ==> t.w > 0 && t.l.pos && t.l.v < n }

  lemma StartBuilt()
    ensures Built([], [], map[], []) && Numbered(map[], [], 0) && Usable([], 0) && Priced([], 0) && Costs([], []) == []
  {
  }

  lemma NamesByIndex(c: MaxConstr, vars: Numbers)
    requires Names(c, vars)
    ensures forall i :: 0 <= i < |c.lits| ==> c.lits[i].name in vars
  {
    assert forall i :: 0 <= i < |c.lits| ==> c.lits[i] in c.lits;
  }

  // The next free number for the blocking variable of a soft constraint.
  ghost predicate NextBlock(c: MaxConstr, block: Option<nat>, n: nat, n': nat)
  {
    if c.weight != 0 then block == Some(n) && n' == n + 1 else block == None && n' == n
  }

  lemma BlockNumbered(vars: Numbers, blocks: seq<Option<nat>>, block: Option<nat>, n: nat, c: MaxConstr)
    requires Numbered(vars, blocks, n)
    ensures NextBlock(c, block, n, n + 1) ==> Numbered(vars, blocks + [block], n + 1)
    ensures NextBlock(c, block, n, n) ==> Numbered(vars, blocks + [block], n)
  {
  }

  lemma TermsUsable(c: MaxConstr, vars: Numbers, block: Option<nat>, n: nat, n': nat, ds: seq<Constr>, d: Constr,
                    blocks: seq<Option<nat>>)
    requires WellFormed(c) && forall i :: 0 <= i < |c.lits| ==> c.lits[i].name in vars
    requires Numbered(vars, blocks, n) && NextBlock(c, block, n, n') && Usable(ds, n)
    requires Positive(d.terms) && P.VarSet(d.terms) <= P.VarSet(RelaxedTerms(c, vars, block))
    ensures Usable(ds + [d], n')
  {
    TermVars(c, vars, |c.lits|, n);
    forall t | t in d.terms ensures t.l.v < n' {
      assert t.l.v in P.VarSet(d.terms);
      assert t.l.v in P.VarSet(RelaxedTerms(c, vars, block));
    }
  }

  lemma BlockPriced(prices: seq<Term>, block: Option<nat>, n: nat, c: MaxConstr, prices': seq<Term>)
    requires Priced(prices, n) && c.weight >= 0
    requires c.weight == 0 ==> block == None && prices' == prices
    requires c.weight != 0 ==> block == Some(n) && prices' == prices + [Term(Lit(n, true), c.weight)]
    ensures Priced(prices', if c.weight != 0 then n + 1 else n)
  {
  }

  lemma WellFormedAll(cs: seq<MaxConstr>)
    requires forall i :: 0 <= i < |cs| ==> Weighted(cs[i])
    ensures AllWellFormed(cs)
  {
  }

  lemma UsableTerms(ds: seq<Constr>, n: nat)
    requires Usable(ds, n)
    ensures forall d, t :: d in ds && t in d.terms ==> t.w > 0 && t.l.v < n
  {
  }

  lemma PricedTerms(ts: seq<Term>, n: nat)
    requires Priced(ts, n)
    ensures Positive(ts) && O.Unclashing(ts)
  {
  }

  lemma FixedByUnits(m: Model, cs: seq<Constr>, us: seq<Lit>)
    requires Simplify.UnitsBound(m, us)
    ensures O.Coherent(us) && O.Fixes(m, cs, us)
  {
    forall a: Assignment | S.SolvesPb(a, cs, us) ensures Follows(a, m) {
      Simplify.UnitsFollowed(m, us, a);
    }
  }

  lemma NoneHard(cs: seq<MaxConstr>, ds: seq<Constr>, vars: Numbers, blocks: seq<Option<nat>>, n: nat)
    requires Built(cs, ds, vars, blocks) && Numbered(vars, blocks, n) && forall i :: 0 <= i < |cs| ==> Relaxable(cs[i])
    requires S.NoSolution(ds, []) && AllWellFormed(cs)
    ensures forall a: Naming :: !HardMet(cs, a)
  {
    forall a: Naming ensures !HardMet(cs, a) {
      if HardMet(cs, a) {
        RelaxedComplete(cs, ds, vars, blocks, n, a);
        assert S.SolvesPb(Relaxing(cs, vars, blocks, a), ds, []);
      }
    }
  }

  lemma SolvesClauses(s: Assignment, ds: seq<Constr>, es: seq<Constr>, us: seq<Lit>)
    requires S.SameSolutions(ds, [], es, us)
    ensures S.SolvesPb(s, es, us) <==> AllMet(ds, s)
  {
    assert S.SolvesPb(s, ds, []) <==> AllMet(ds, s);
  }

  // What the minimisation found, in terms of the names.
  lemma Found(cs: seq<MaxConstr>, ds: seq<Constr>, vars: Numbers, blocks: seq<Option<nat>>, es: seq<Constr>, us: seq<Lit>,
              best: Assignment, cost: int)
    requires Built(cs, ds, vars, blocks) && forall i :: 0 <= i < |cs| ==> Weighted(cs[i])
    requires |cs| == |blocks| && AllWellFormed(cs) && S.SameSolutions(ds, [], es, us)
    requires S.SolvesPb(best, es, us) && TrueSum(Costs(cs, blocks), best) == cost
    ensures HardMet(cs, NamesOf(vars, best)) && Violated(cs, NamesOf(vars, best)) <= cost
  {
    hide Built, HardMet, Violated, TrueSum;
    SolvesClauses(best, ds, es, us);
    RelaxedSound(cs, ds, vars, blocks, best);
  }

  // With relaxable constraints nothing cheaper is missed.
  lemma Optimal(cs: seq<MaxConstr>, ds: seq<Constr>, vars: Numbers, blocks: seq<Option<nat>>, n: nat, es: seq<Constr>,
                us: seq<Lit>, best: Assignment, cost: int)
    requires Built(cs, ds, vars, blocks) && Numbered(vars, blocks, n) && forall i :: 0 <= i < |cs| ==> Relaxable(cs[i])
    requires |cs| == |blocks| && AllWellFormed(cs) && S.SameSolutions(ds, [], es, us)
    requires cost == -1 <==> S.NoSolution(es, us)
    requires cost != -1 ==> forall s: Assignment :: S.SolvesPb(s, es, us) ==> TrueSum(Costs(cs, blocks), s) >= cost
    ensures forall a: Naming :: HardMet(cs, a) ==> cost != -1 && Violated(cs, a) >= cost
  {
    hide Built, Numbered, Relaxable, HardMet, Violated, TrueSum, Relaxing;
    forall a: Naming | HardMet(cs, a) ensures cost != -1 && Violated(cs, a) >= cost {
      RelaxedComplete(cs, ds, vars, blocks, n, a);
      SolvesClauses(Relaxing(cs, vars, blocks, a), ds, es, us);
    }
  }

  // ----- soft constraints that cannot be relaxed -----

  // No name occurs twice.
  predicate NamesApart(c: MaxConstr) { forall i, j :: 0 <= i < j < |c.lits| ==> c.lits[i].name != c.lits[j].name }

  // The naming that makes just the literals with negative coefficients hold.
  ghost function Worst(c: MaxConstr): Naming
    requires WellFormed(c)
  {
    name => exists i :: 0 <= i < |c.lits| && c.lits[i].name == name && (Coeff(c, i) < 0) != c.lits[i].negated
  }

  lemma {:induction false} WorstReached(c: MaxConstr, k: nat)
    requires WellFormed(c) && NamesApart(c) && k <= |c.lits|
    ensures Reached(c, Worst(c), k) == Lowest(c, k)
  {
    if k > 0 {
      WorstReached(c, k - 1);
      var l := c.lits[k - 1];
      assert forall i :: 0 <= i < |c.lits| && c.lits[i].name == l.name ==> i == k - 1;
      assert NamedHolds(l, Worst(c)) <==> Coeff(c, k - 1) < 0;
    }
  }

  // By how much the naming a meets the relaxed constraint, blocked or not.
  function BlockedGap(c: MaxConstr, a: Naming, blocked: bool): int
    requires WellFormed(c)
  {
    Reached(c, a, |c.lits|) - c.atLeast + if blocked then BlockCoeff(c) else 0
  }

  // A soft constraint is relaxable if and only if every naming meets it with its blocking literal chosen well.
  lemma RelaxableExact(c: MaxConstr)
    requires Weighted(c) && c.weight > 0 && NamesApart(c)
    ensures Relaxable(c) <==> forall a: Naming :: BlockedGap(c, a, false) >= 0 || BlockedGap(c, a, true) >= 0
  {
    WorstReached(c, |c.lits|);
    assert !Relaxable(c) ==> BlockedGap(c, Worst(c), false) < 0 && BlockedGap(c, Worst(c), true) < 0;
    forall a: Naming | Relaxable(c) ensures BlockedGap(c, a, false) >= 0 || BlockedGap(c, a, true) >= 0 {
      ReachedLowest(c, a, |c.lits|);
    }
  }

  // The hard constraints that leave the names of c no values but those of a.
  function Pins(c: MaxConstr, a: Naming): seq<MaxConstr>
  {
    seq(|c.lits|, i requires 0 <= i < |c.lits| => MaxConstr([NamedLit(c.lits[i].name, !a(c.lits[i].name))], [], 1, 0))
  }

  lemma PinMeans(name: string, value: bool, a: Naming)
    ensures Satisfied(MaxConstr([NamedLit(name, !value)], [], 1, 0), a) <==> a(name) == value
  {
    var c := MaxConstr([NamedLit(name, !value)], [], 1, 0);
    assert Reached(c, a, 1) == Reached(c, a, 0) + if NamedHolds(c.lits[0], a) then Coeff(c, 0) else 0;
  }

  // If c is not relaxable, there are hard constraints beside which it makes the relaxed problem unsolvable, and the
  // answer -1, although the hard constraints can be met.
  lemma Unrelaxable(c: MaxConstr)
    requires Weighted(c) && c.weight > 0 && NamesApart(c) && !Relaxable(c)
    ensures var cs := Pins(c, Worst(c)) + [c];
            && AllWellFormed(cs) && HardMet(cs, Worst(c))
            && forall ds, vars, blocks, s: Assignment :: Built(cs, ds, vars, blocks) ==> !AllMet(ds, s)
  {
    var a, n := Worst(c), |c.lits|;
    var pins := Pins(c, a);
    var cs := pins + [c];
    forall i | 0 <= i < n ensures WellFormed(cs[i]) && Satisfied(cs[i], a) {
      PinMeans(c.lits[i].name, a(c.lits[i].name), a);
    }
    WorstReached(c, n);
    hide Satisfied, Worst, Relaxable;
    forall ds, vars, blocks, s: Assignment | Built(cs, ds, vars, blocks) ensures !AllMet(ds, s) {
      if AllMet(ds, s) {
        PinnedTo(c, a, ds, vars, blocks, s);
      }
    }
  }

  lemma PinnedTo(c: MaxConstr, a: Naming, ds: seq<Constr>, vars: Numbers, blocks: seq<Option<nat>>, s: Assignment)
    requires Weighted(c) && Built(Pins(c, a) + [c], ds, vars, blocks) && AllMet(ds, s)
    ensures BlockedGap(c, a, false) >= 0 || BlockedGap(c, a, true) >= 0
  {
    var n, cs, names := |c.lits|, Pins(c, a) + [c], NamesOf(vars, s);
    forall l | l in c.lits ensures names(l.name) == a(l.name) {
      var i :| 0 <= i < n && c.lits[i] == l;
      assert cs[i] == Pins(c, a)[i];
      assert ds[i] in ds && Relaxes(ds[i], cs[i], vars, blocks[i]);
      assert TrueSum(ds[i].terms, s) - ds[i].card == Gap(cs[i], vars, blocks[i], s);
      PinMeans(l.name, a(l.name), names);
    }
    ReachedAgrees(c, names, a, n);
    assert ds[n] in ds && cs[n] == c && Relaxes(ds[n], c, vars, blocks[n]);
    assert TrueSum(ds[n].terms, s) - ds[n].card == Gap(c, vars, blocks[n], s);
  }

  class Problem {
    ghost const constrs: seq<MaxConstr>
    ghost var blocks: seq<Option<nat>>
    var intVars: Numbers
    var varInts: seq<string>
    var clauses: seq<Constr>
    var optLits: seq<Term>

    ghost predicate Valid()
      reads this
    {
      Built(constrs, clauses, intVars, blocks) && Numbered(intVars, blocks, |varInts|)
      && Usable(clauses, |varInts|) && Priced(optLits, |varInts|)
      && |blocks| == |constrs| && optLits == Costs(constrs, blocks)
      && forall i :: 0 <= i < |constrs| ==> Weighted(constrs[i])
    }

    // New: numbers the names, relaxes the soft constraints and normalises every constraint.
    constructor (constrs: seq<MaxConstr>)
      requires forall i :: 0 <= i < |constrs| ==> Weighted(constrs[i])
      ensures this.constrs == constrs && Valid()
    {
      this.constrs, blocks, clauses, optLits := constrs, [], [], [];
      intVars, varInts := map[], [];
      new;
      hide Built, Numbered, Usable, Priced;
      StartBuilt();
      for i := 0 to |constrs|
        invariant this.constrs == constrs && Built(constrs[..i], clauses, intVars, blocks)
        invariant Numbered(intVars, blocks, |varInts|) && Usable(clauses, |varInts|) && Priced(optLits, |varInts|)
        invariant |blocks| == i && optLits == Costs(constrs[..i], blocks)
      {
        assert constrs[..i + 1] == constrs[..i] + [constrs[i]];
        Add(constrs[..i], constrs[i]);
      }
      assert constrs[..|constrs|] == constrs;
    }

    // One more name to number.
    method NumberNames(c: MaxConstr, ghost cs: seq<MaxConstr>)
      requires Numbered(intVars, blocks, |varInts|) && Built(cs, clauses, intVars, blocks)
      requires Usable(clauses, |varInts|) && Priced(optLits, |varInts|)
      modifies this`intVars, this`varInts
      ensures Numbered(intVars, blocks, |varInts|) && Built(cs, clauses, intVars, blocks) && Names(c, intVars)
      ensures Usable(clauses, |varInts|) && Priced(optLits, |varInts|)
    {
      hide Built;
      for j := 0 to |c.lits|
        invariant Numbered(intVars, blocks, |varInts|) && Built(cs, clauses, intVars, blocks)
        invariant Usable(clauses, |varInts|) && Priced(optLits, |varInts|)
        invariant forall k :: 0 <= k < j ==> c.lits[k].name in intVars
      {
        var v := c.lits[j].name;
        if v !in intVars {
          BuiltGrows(cs, clauses, intVars, intVars[v := |varInts|], blocks);
          intVars := intVars[v := |varInts|];
          varInts := varInts + [v];
        }
      }
    }

    // One more constraint.
    method Add(ghost cs: seq<MaxConstr>, c: MaxConstr)
      requires Weighted(c) && Built(cs, clauses, intVars, blocks) && Numbered(intVars, blocks, |varInts|)
      requires Usable(clauses, |varInts|) && Priced(optLits, |varInts|) && |cs| == |blocks| && optLits == Costs(cs, blocks)
      modifies this`intVars, this`varInts, this`clauses, this`optLits, this`blocks
      ensures Built(cs + [c], clauses, intVars, blocks) && Numbered(intVars, blocks, |varInts|)
      ensures Usable(clauses, |varInts|) && Priced(optLits, |varInts|)
      ensures |cs| + 1 == |blocks| && optLits == Costs(cs + [c], blocks)
    {
      hide Built, Usable, Priced, Numbered, Costs;
      NumberNames(c, cs);
      NamesByIndex(c, intVars);
      var block: Option<nat> := None;
      ghost var n, prices := |varInts|, optLits;
      if c.weight != 0 {  // soft constraint: add a blocking literal
        block := Some(|varInts|);
        varInts := varInts + [""];
        optLits := optLits + [Term(Lit(block.value, true), c.weight)];
      }
      var ts := RelaxedTerms(c, intVars, block);
      var lits := new Term[|ts|](i requires 0 <= i < |ts| => ts[i]);
      assert lits[..|ts|] == ts;
      var len, atLeast := P.GtEq(lits, |ts|, c.atLeast);
      var d := Constr(lits[..len], atLeast);
      BlockNumbered(intVars, blocks, block, n, c);
      TermsUsable(c, intVars, block, n, |varInts|, clauses, d, blocks);
      BlockPriced(prices, block, n, c, optLits);
      forall s: Assignment ensures TrueSum(d.terms, s) - d.card == Gap(c, intVars, block, s) {
        RelaxedTermsGap(c, intVars, block, s);
      }
      BuiltMore(cs, clauses, intVars, blocks, c, d, block);
      clauses := clauses + [d];
      blocks := blocks + [block];
    }

    // Solve: an assignment that meets the hard constraints, or -1. If all soft constraints are relaxable, the cost is
    // the least weight that has to be violated, and -1 stands for hard constraints that cannot be met.
    method Solve(solve: O.Oracle) returns (model: Naming, cost: int)
      requires Valid() && O.Exact(solve)
      ensures AllWellFormed(constrs)
      ensures cost != -1 ==> HardMet(constrs, model) && Violated(constrs, model) <= cost
      ensures (forall i :: 0 <= i < |constrs| ==> Relaxable(constrs[i])) ==>
                (cost == -1 <==> forall a: Naming :: !HardMet(constrs, a))
                && (cost != -1 ==> Violated(constrs, model) == cost && forall a: Naming :: HardMet(constrs, a) ==> Violated(constrs, a) >= cost)
    {
      hide Built, Numbered, Usable, Priced, Relaxable, S.SolvesPb, S.SameSolutions, O.Exact, O.Fixes, O.Coherent, O.Unclashing,
        HardMet, Violated, NamesOf, Simplify.UnitsBound;
      WellFormedAll(constrs);
      UsableTerms(clauses, |varInts|);
      PricedTerms(optLits, |varInts|);
      var prob := new S.Problem.ParsePBConstrs(|varInts|, clauses);
      if prob.status == IsUnsat {
        if forall i :: 0 <= i < |constrs| ==> Relaxable(constrs[i]) {
          NoneHard(constrs, clauses, intVars, blocks, |varInts|);
        }
        return (name => false), -1;
      }
      var cs := S.Values(prob.clauses);
      FixedByUnits(prob.model, cs, prob.units);
      var solver := new O.Optimizer(solve, optLits, cs, prob.units, prob.model);
      cost := solver.Minimize();
      model := NamesOf(intVars, solver.lastModel);
      if cost != -1 {
        Found(constrs, clauses, intVars, blocks, cs, prob.units, solver.lastModel, cost);
      }
      if forall i :: 0 <= i < |constrs| ==> Relaxable(constrs[i]) {
        Optimal(constrs, clauses, intVars, blocks, |varInts|, cs, prob.units, solver.lastModel, cost);
      }
    }
  }
}
