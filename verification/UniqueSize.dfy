// What the grid of Unique is for: its formula grows with the number of variables, and not with its square.
module UniqueSize {
  import opened BoolFormula
  import opened Unique

  // How often variables occur in f.
  function Atoms(f: Formula): nat
  {
    match f
    case Var(_) => 1
    case Literal(_, _) => 1
    case Not(g) => Atoms(g)
    case And(subs) => AtomsIn(subs)
    case Or(subs) => AtomsIn(subs)
    case _ => 0
  }

  function AtomsIn(fs: seq<Formula>): nat { if fs == [] then 0 else AtomsIn(fs[..|fs| - 1]) + Atoms(fs[|fs| - 1]) }

  lemma {:induction false} AtomsConcat(fs: seq<Formula>, gs: seq<Formula>)
    ensures AtomsIn(fs + gs) == AtomsIn(fs) + AtomsIn(gs)
  {
    if gs == [] {
      assert fs + gs == fs;
    } else {
      var n := |gs| - 1;
      AtomsConcat(fs, gs[..n]);
      assert (fs + gs)[..|fs + gs| - 1] == fs + gs[..n];
    }
  }

  lemma AtomsTwo(f: Formula, g: Formula)
    ensures AtomsIn([f, g]) == Atoms(f) + Atoms(g) && AtomsIn([f]) == Atoms(f)
  {
    var none: seq<Formula> := [];
    assert [f, g][..1] == [f] && [f][..0] == none && AtomsIn(none) == 0;
    assert AtomsIn([f]) == Atoms(f);
  }

  lemma {:induction false} AtomsOfVars(vars: seq<Name>)
    ensures AtomsIn(VarsOf(vars)) == Atoms(Or(VarsOf(vars))) == |vars|
  {
    assert Atoms(Or(VarsOf(vars))) == AtomsIn(VarsOf(vars));
    if vars == [] {
      assert VarsOf(vars) == [];
    } else {
      var n := |vars| - 1;
      AtomsOfVars(vars[..n]);
      assert VarsOf(vars)[..n] == VarsOf(vars[..n]) && VarsOf(vars)[n] == Var(vars[n]);
    }
  }

  lemma AtomsOfIff(f: Formula, g: Formula)
    ensures Atoms(Iff(f, g)) == 2 * (Atoms(f) + Atoms(g))
  {
    AtomsTwo(Not(f), g);
    AtomsTwo(f, Not(g));
    AtomsTwo(Or([Not(f), g]), Or([f, Not(g)]));
  }

  lemma {:induction false} AtomsOfPairsFrom(vars: seq<Name>, i: nat, j: nat)
    requires i < |vars| && j <= |vars|
    ensures AtomsIn(PairsFrom(vars, i, j)) == 2 * (|vars| - j)
    decreases |vars| - j
  {
    if j < |vars| {
      var pair := NotBoth(vars, i, j);
      AtomsOfPairsFrom(vars, i, j + 1);
      AtomsConcat([pair], PairsFrom(vars, i, j + 1));
      AtomsTwo(Not(Var(vars[i])), Not(Var(vars[j])));
      AtomsTwo(pair, pair);
    }
  }

  lemma {:induction false} AtomsOfPairs(vars: seq<Name>, i: nat)
    requires i <= |vars|
    ensures var k := |vars| - i; AtomsIn(Pairs(vars, i)) == k * k - k
    decreases |vars| - i
  {
    if i < |vars| {
      AtomsOfPairs(vars, i + 1);
      AtomsOfPairsFrom(vars, i, i + 1);
      AtomsConcat(PairsFrom(vars, i, i + 1), Pairs(vars, i + 1));
      var k := |vars| - i;
      assert (k - 1) * (k - 1) == k * k - 2 * k + 1;
    }
  }

  // The pairwise formula has a square of occurrences.
  lemma SmallSize(vars: seq<Name>)
    ensures Atoms(UniqueSmall(vars)) == |vars| * |vars|
  {
    var some := Or(VarsOf(vars));
    AtomsOfVars(vars);
    AtomsOfPairs(vars, 0);
    AtomsConcat([some], Pairs(vars, 0));
    AtomsTwo(some, some);
    hide AtomsIn, Pairs;
  }

  // ----- lines and columns -----

  // How many variables are sent below position h.
  function Picked(vars: seq<Name>, f: nat -> nat, h: nat): nat
  {
    if h == 0 then 0 else Picked(vars, f, h - 1) + |Pick(vars, f, h - 1)|
  }

  lemma {:induction false} PickedMore(vars: seq<Name>, f: nat -> nat, h: nat)
    requires vars != []
    ensures var n := |vars| - 1; Picked(vars, f, h) == Picked(vars[..n], f, h) + if f(n) < h then 1 else 0
  {
    if h > 0 {
      PickedMore(vars, f, h - 1);
    }
  }

  lemma {:induction false} PickedAll(vars: seq<Name>, f: nat -> nat, h: nat)
    ensures Picked(vars, f, h) <= |vars|
  {
    if vars == [] {
      PickedNone(f, h);
    } else {
      PickedMore(vars, f, h);
      PickedAll(vars[..|vars| - 1], f, h);
    }
  }

  lemma {:induction false} PickedNone(f: nat -> nat, h: nat)
    ensures Picked([], f, h) == 0
  {
    if h > 0 {
      PickedNone(f, h - 1);
    }
  }

  lemma {:induction false} LinksSize(vars: seq<Name>, f: nat -> nat, heads: seq<Name>)
    ensures AtomsIn(Links(vars, f, heads)) == 2 * (|heads| + Picked(vars, f, |heads|))
  {
    if heads != [] {
      var n := |heads| - 1;
      var picked := Pick(vars, f, n);
      LinksSize(vars, f, heads[..n]);
      assert Links(vars, f, heads)[..n] == Links(vars, f, heads[..n]);
      AtomsOfVars(picked);
      AtomsOfIff(Var(heads[n]), Or(VarsOf(picked)));
    }
  }

  lemma RecSize(vars: seq<Name>)
    requires |vars| > 4
    ensures var lines, cols := LineVars(vars), ColVars(vars);
            Atoms(UniqueRec(vars))
            <= 2 * (|lines| + |cols|) + 4 * |vars| + Atoms(UniqueRec(lines)) + Atoms(UniqueRec(cols))
  {
    var lines, cols, c := LineVars(vars), ColVars(vars), Cols(|vars|);
    var ls, cs := Links(vars, LineOf(c), lines), Links(vars, ColOf(c), cols);
    var both := [UniqueRec(lines), UniqueRec(cols)];
    assert UniqueRec(vars) == And(ls + cs + both);
    hide Links, LineOf, ColOf, LineVars, ColVars, UniqueRec, AtomsIn, Lines, Cols;
    AtomsConcat(ls + cs, both);
    AtomsConcat(ls, cs);
    AtomsTwo(both[0], both[1]);
    LinksSize(vars, LineOf(c), lines);
    LinksSize(vars, ColOf(c), cols);
    PickedAll(vars, LineOf(c), |lines|);
    PickedAll(vars, ColOf(c), |cols|);
  }

  // Both sides together are small against n.
  lemma SidesSmall(n: nat, r: nat, c: nat)
    requires n >= 5 && r >= 1 && c >= 1 && r * (r - 1) < n <= r * (r + 1) && (c - 1) * (c - 1) < n <= c * c
    ensures r + c <= n && r < n && c < n && (n <= 16 ==> r <= 4 && c <= 4) && (n >= 17 ==> 7 * (r + c) <= 4 * n)
  {
    SidesFit(n, r, c);
    NearSquare(n, r, c);
    if n <= 16 {
      Scale(r, 4, r - 1);
      Scale(c - 1, 4, c - 1);
      Scale(4, 4, c - 1);
    } else {
      Scale(r + 1, r, 3);
      Scale(4, r + 1, 4);
      Scale(r, 4, r - 1);
    }
  }

  // The formula of the grid has at most twelve occurrences for each variable.
  lemma {:induction false} UniqueLinear(vars: seq<Name>)
    ensures Atoms(UniqueRec(vars)) <= 12 * |vars|
    ensures |vars| <= 4 ==> Atoms(UniqueRec(vars)) <= 4 * |vars|
    decreases |vars|
  {
    var n := |vars|;
    if n <= 4 {
      SmallSize(vars);
      Scale(n, n, 4);
    } else {
      SidesSmall(n, Lines(n), Cols(n));
      RecSize(vars);
      UniqueLinear(LineVars(vars));
      UniqueLinear(ColVars(vars));
    }
  }
}
