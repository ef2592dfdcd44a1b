// The exactly-one constraint by a grid of lines and columns: uniqueSmall and uniqueRec (bf/bf.go).
module Unique {
  import opened BoolFormula

  // Just one position of vars is true.
  ghost predicate ExactlyOne(vars: seq<Name>, m: Valuation)
  {
    exists t :: OnlyTrue(vars, m, t)
  }

  ghost predicate OnlyTrue(vars: seq<Name>, m: Valuation, t: int)
  {
    0 <= t < |vars| && m(vars[t]) && forall k :: 0 <= k < |vars| && k != t ==> !m(vars[k])
  }

  function VarsOf(vars: seq<Name>): seq<Formula> { seq(|vars|, i requires 0 <= i < |vars| => Var(vars[i])) }

  // At most one of the ith and the jth variable.
  function NotBoth(vars: seq<Name>, i: nat, j: nat): Formula
    requires i < |vars| && j < |vars|
  {
    Or([Not(Var(vars[i])), Not(Var(vars[j]))])
  }

  function PairsFrom(vars: seq<Name>, i: nat, j: nat): seq<Formula>
    requires i < |vars| && j <= |vars|
    decreases |vars| - j
  {
    if j == |vars| then [] else [NotBoth(vars, i, j)] + PairsFrom(vars, i, j + 1)
  }

  function Pairs(vars: seq<Name>, i: nat): seq<Formula>
    requires i <= |vars|
    decreases |vars| - i
  {
    if i == |vars| then [] else PairsFrom(vars, i, i + 1) + Pairs(vars, i + 1)
  }

  // Some variable is true, and no two of them.
  function UniqueSmall(vars: seq<Name>): Formula { And([Or(VarsOf(vars))] + Pairs(vars, 0)) }

  lemma {:induction false} PairsFromEval(vars: seq<Name>, i: nat, j: nat, m: Valuation)
    requires i < |vars| && j <= |vars|
    ensures AllTrue(PairsFrom(vars, i, j), m) <==> forall k :: j <= k < |vars| ==> !(m(vars[i]) && m(vars[k]))
    decreases |vars| - j
  {
    if j < |vars| {
      PairsFromEval(vars, i, j + 1, m);
      AllTrueConcat([NotBoth(vars, i, j)], PairsFrom(vars, i, j + 1), m);
      NotBothEval(vars, i, j, m);
    }
  }

  lemma NotBothEval(vars: seq<Name>, i: nat, j: nat, m: Valuation)
    requires i < |vars| && j < |vars|
    ensures AllTrue([NotBoth(vars, i, j)], m) <==> !(m(vars[i]) && m(vars[j]))
  {
    var f := NotBoth(vars, i, j);
    assert f.subs[0] == Not(Var(vars[i])) && f.subs[1] == Not(Var(vars[j]));
    assert Eval(f.subs[0], m) <==> !m(vars[i]);
    assert Eval(f.subs[1], m) <==> !m(vars[j]);
    assert Eval(f, m) <==> Eval(f.subs[0], m) || Eval(f.subs[1], m);
    assert AllTrue([f], m) <==> Eval([f][0], m);
  }

  lemma {:induction false} PairsEval(vars: seq<Name>, i: nat, m: Valuation)
    requires i <= |vars|
    ensures AllTrue(Pairs(vars, i), m) <==> forall j, k :: i <= j < k < |vars| ==> !(m(vars[j]) && m(vars[k]))
    decreases |vars| - i
  {
    hide Eval, PairsFrom;
    if i < |vars| {
      PairsEval(vars, i + 1, m);
      PairsFromEval(vars, i, i + 1, m);
      AllTrueConcat(PairsFrom(vars, i, i + 1), Pairs(vars, i + 1), m);
    }
  }

  lemma SmallExact(vars: seq<Name>, m: Valuation)
    ensures Eval(UniqueSmall(vars), m) <==> ExactlyOne(vars, m)
  {
    var ps, some := Pairs(vars, 0), Or(VarsOf(vars));
    PairsEval(vars, 0, m);
    AllTrueConcat([some], ps, m);
    assert AllTrue([some], m) <==> Eval([some][0], m);
    assert Eval(some, m) <==> exists t :: 0 <= t < |vars| && m(vars[t]) by {
      forall t | 0 <= t < |vars| ensures Eval(VarsOf(vars)[t], m) <==> m(vars[t]) {
      }
    }
    if Eval(UniqueSmall(vars), m) {
      var t :| 0 <= t < |vars| && m(vars[t]);
      assert OnlyTrue(vars, m, t);
    }
  }

  // ----- the grid -----

  // The rounded square root, int(sqrt(n) + 0.5): the largest r with r * (r - 1) < n.
  function Lines(n: nat): (r: nat)
    requires n >= 1
    ensures r >= 1 && r * (r - 1) < n <= r * (r + 1)
  {
    GrowLines(n, 1)
  }

  function GrowLines(n: nat, r: nat): (res: nat)
    requires r >= 1 && r * (r - 1) < n
    ensures res >= 1 && res * (res - 1) < n <= res * (res + 1)
    decreases n - r * (r - 1)
  {
    if n <= r * (r + 1) then r else GrowLines(n, r + 1)
  }

  // The square root rounded up: the smallest c with n <= c * c.
  function Cols(n: nat): (c: nat)
    requires n >= 1
    ensures c >= 1 && (c - 1) * (c - 1) < n <= c * c
  {
    GrowCols(n, 1)
  }

  function GrowCols(n: nat, c: nat): (res: nat)
    requires c >= 1 && (c - 1) * (c - 1) < n
    ensures res >= 1 && (res - 1) * (res - 1) < n <= res * res
    decreases n - (c - 1) * (c - 1)
  {
    if n <= c * c then c else GrowCols(n, c + 1)
  }

  lemma Scale(x: int, a: int, b: int)
    requires x >= 0
    ensures a <= b ==> x * a <= x * b
  {
  }

  lemma NearSquare(n: nat, r: nat, c: nat)
    requires r >= 1 && c >= 1 && r * (r - 1) < n <= r * (r + 1) && (c - 1) * (c - 1) < n <= c * c
    ensures c == r || c == r + 1
  {
    Scale(c, c, r - 1);
    Scale(r - 1, c, r);
    Scale(c - 1, r + 1, c - 1);
    Scale(r + 1, r, c - 1);
  }

  // The grid has room for all variables, no line or column is empty, and both sides are smaller than n.
  lemma GridFits(n: nat)
    requires n >= 1
    ensures var r, c := Lines(n), Cols(n);
            && n <= r * c && (r - 1) * c < n && c <= n && (n >= 5 ==> r < n && c < n)
  {
    SidesFit(n, Lines(n), Cols(n));
  }

  lemma SidesFit(n: nat, r: nat, c: nat)
    requires r >= 1 && c >= 1 && r * (r - 1) < n <= r * (r + 1) && (c - 1) * (c - 1) < n <= c * c
    ensures n <= r * c && (r - 1) * c < n && c <= n && (n >= 5 ==> r < n && c < n)
  {
    NearSquare(n, r, c);
    if c == r + 1 {
      assert (r - 1) * (r + 1) == r * r - 1;
    }
    Scale(c - 1, 1, c - 1);
    Scale(c - 1, 2, c - 1);
  }

  function LineVars(vars: seq<Name>): seq<Name>
    requires vars != []
  {
    seq(Lines(|vars|), (i: nat) => Line(i, vars))
  }

  function ColVars(vars: seq<Name>): seq<Name>
    requires vars != []
  {
    seq(Cols(|vars|), (i: nat) => Col(i, vars))
  }

  function Iff(f: Formula, g: Formula): Formula { And([Or([Not(f), g]), Or([f, Not(g)])]) }

  lemma IffEval(f: Formula, g: Formula, m: Valuation)
    ensures Eval(Iff(f, g), m) <==> (Eval(f, m) <==> Eval(g, m))
  {
    var h := Iff(f, g);
    var p, q := h.subs[0], h.subs[1];
    assert Eval(h, m) <==> Eval(p, m) && Eval(q, m) by {
      assert Eval(h, m) ==> Eval(h.subs[0], m) && Eval(h.subs[1], m);
    }
    assert p.subs[0] == Not(f) && p.subs[1] == g && q.subs[0] == f && q.subs[1] == Not(g);
    assert Eval(p, m) <==> Eval(p.subs[0], m) || Eval(p.subs[1], m);
    assert Eval(q, m) <==> Eval(q.subs[0], m) || Eval(q.subs[1], m);
  }

  // The variables whose position f sends to i.
  function Pick(vars: seq<Name>, f: nat -> nat, i: nat): seq<Name>
  {
    if vars == [] then []
    else var n := |vars| - 1; Pick(vars[..n], f, i) + if f(n) == i then [vars[n]] else []
  }

  function LineOf(c: nat): nat -> nat
    requires c > 0
  {
    (k: nat) => k / c
  }

  function ColOf(c: nat): nat -> nat
    requires c > 0
  {
    (k: nat) => k % c
  }

  lemma {:induction false} PickEval(vars: seq<Name>, f: nat -> nat, i: nat, m: Valuation)
    ensures Eval(Or(VarsOf(Pick(vars, f, i))), m) <==> exists k :: 0 <= k < |vars| && f(k) == i && m(vars[k])
    ensures Pick(vars, f, i) != [] <==> exists k :: 0 <= k < |vars| && f(k) == i
  {
    if vars != [] {
      var n := |vars| - 1;
      var p := Pick(vars[..n], f, i);
      PickEval(vars[..n], f, i, m);
      assert forall k :: 0 <= k < n ==> vars[..n][k] == vars[k];
      var last := if f(n) == i then [vars[n]] else [];
      assert VarsOf(p + last) == VarsOf(p) + VarsOf(last);
      AllTrueConcat(VarsOf(p), VarsOf(last), m);
      assert f(n) == i ==> (SomeTrue(VarsOf(last), m) <==> Eval(VarsOf(last)[0], m));
    }
  }

  // Each head variable stands for the disjunction of the variables sent to its position.
  function Links(vars: seq<Name>, f: nat -> nat, heads: seq<Name>): seq<Formula>
  {
    seq(|heads|, i requires 0 <= i < |heads| => Iff(Var(heads[i]), Or(VarsOf(Pick(vars, f, i)))))
  }

  ghost predicate Linked(vars: seq<Name>, f: nat -> nat, heads: seq<Name>, m: Valuation)
  {
    forall i :: 0 <= i < |heads| ==> (m(heads[i]) <==> exists k :: 0 <= k < |vars| && f(k) == i && m(vars[k]))
  }

  lemma LinksEval(vars: seq<Name>, f: nat -> nat, heads: seq<Name>, m: Valuation)
    ensures AllTrue(Links(vars, f, heads), m) <==> Linked(vars, f, heads, m)
  {
    forall i | 0 <= i < |heads|
      ensures Eval(Links(vars, f, heads)[i], m) <==> (m(heads[i]) <==> exists k :: 0 <= k < |vars| && f(k) == i && m(vars[k]))
    {
      IffEval(Var(heads[i]), Or(VarsOf(Pick(vars, f, i))), m);
      PickEval(vars, f, i, m);
    }
  }

  // uniqueRec.
  function UniqueRec(vars: seq<Name>): Formula
    decreases |vars|
  {
    if |vars| <= 4 then UniqueSmall(vars)
    else
      GridFits(|vars|);
      var lines, cols, c := LineVars(vars), ColVars(vars), Cols(|vars|);
      And(Links(vars, LineOf(c), lines) + Links(vars, ColOf(c), cols) + [UniqueRec(lines), UniqueRec(cols)])
  }

  lemma AndEval(fs: seq<Formula>, m: Valuation)
    ensures Eval(And(fs), m) <==> AllTrue(fs, m)
  {
  }

  lemma RecEval(vars: seq<Name>, m: Valuation)
    requires |vars| > 4
    ensures var lines, cols, c := LineVars(vars), ColVars(vars), Cols(|vars|);
            Eval(UniqueRec(vars), m) <==>
              Linked(vars, LineOf(c), lines, m) && Linked(vars, ColOf(c), cols, m)
              && Eval(UniqueRec(lines), m) && Eval(UniqueRec(cols), m)
  {
    hide Eval, Links, Linked, LineOf, ColOf, LineVars, ColVars, Lines, Cols;
    var lines, cols, c := LineVars(vars), ColVars(vars), Cols(|vars|);
    var ls, cs, both := Links(vars, LineOf(c), lines), Links(vars, ColOf(c), cols), [UniqueRec(lines), UniqueRec(cols)];
    AllTrueConcat(ls + cs, both, m);
    AllTrueConcat(ls, cs, m);
    LinksEval(vars, LineOf(c), lines, m);
    LinksEval(vars, ColOf(c), cols, m);
    assert AllTrue(both, m) <==> Eval(both[0], m) && Eval(both[1], m);
    AndEval(ls + cs + both, m);
  }

  lemma Cell(n: nat, r: nat, c: nat, k: nat)
    requires c > 0 && k < n <= r * c
    ensures k / c < r && k % c < c && k == (k / c) * c + k % c
  {
    if k / c >= r {
      Scale(c, r, k / c);
    }
  }

  // Exactly one line and exactly one column meet in exactly one variable.
  lemma Meet(vars: seq<Name>, lines: seq<Name>, cols: seq<Name>, m: Valuation, i: nat, j: nat)
    requires |cols| > 0 && |vars| <= |lines| * |cols| && OnlyTrue(lines, m, i) && OnlyTrue(cols, m, j)
    requires Linked(vars, LineOf(|cols|), lines, m) && Linked(vars, ColOf(|cols|), cols, m)
    ensures ExactlyOne(vars, m)
  {
    var c := |cols|;
    var t :| 0 <= t < |vars| && LineOf(c)(t) == i && m(vars[t]);
    forall k | 0 <= k < |vars| && m(vars[k]) ensures k / c == i && k % c == j {
      Cell(|vars|, |lines|, c, k);
      assert LineOf(c)(k) == k / c && ColOf(c)(k) == k % c;
      assert m(lines[k / c]) && m(cols[k % c]);
    }
    forall k | 0 <= k < |vars| && k != t ensures !m(vars[k]) {
      Cell(|vars|, |lines|, c, k);
      Cell(|vars|, |lines|, c, t);
    }
    assert OnlyTrue(vars, m, t);
  }

  // Every model of the grid makes exactly one of the variables true.
  lemma {:induction false} UniqueSound(vars: seq<Name>, m: Valuation)
    requires Eval(UniqueRec(vars), m)
    ensures ExactlyOne(vars, m)
    decreases |vars|
  {
    if |vars| <= 4 {
      SmallExact(vars, m);
    } else {
      GridFits(|vars|);
      RecEval(vars, m);
      var lines, cols := LineVars(vars), ColVars(vars);
      UniqueSound(lines, m);
      UniqueSound(cols, m);
      var i :| OnlyTrue(lines, m, i);
      var j :| OnlyTrue(cols, m, j);
      Meet(vars, lines, cols, m, i, j);
    }
  }

  // The values of the made-up variables that follow from those of the user's.
  predicate Value(a: string -> bool, v: Name)
  {
    match v
    case Plain(id) => a(id)
    case Line(i, of) => of != [] && exists k :: 0 <= k < |of| && LineOf(Cols(|of|))(k) == i && Value(a, of[k])
    case Col(i, of) => of != [] && exists k :: 0 <= k < |of| && ColOf(Cols(|of|))(k) == i && Value(a, of[k])
  }

  function Extended(a: string -> bool): Valuation { v => Value(a, v) }

  lemma OneLine(vars: seq<Name>, a: string -> bool, t: nat)
    requires |vars| > 4 && OnlyTrue(vars, Extended(a), t)
    ensures var lines, cols, c := LineVars(vars), ColVars(vars), Cols(|vars|);
            && Linked(vars, LineOf(c), lines, Extended(a)) && Linked(vars, ColOf(c), cols, Extended(a))
            && ExactlyOne(lines, Extended(a)) && ExactlyOne(cols, Extended(a))
  {
    GridFits(|vars|);
    var m, lines, cols, c := Extended(a), LineVars(vars), ColVars(vars), Cols(|vars|);
    Cell(|vars|, Lines(|vars|), c, t);
    assert LineOf(c)(t) == t / c && ColOf(c)(t) == t % c;
    assert OnlyTrue(lines, m, t / c);
    assert OnlyTrue(cols, m, t % c);
  }

  lemma {:induction false} UniqueComplete(vars: seq<Name>, a: string -> bool)
    requires ExactlyOne(vars, Extended(a))
    ensures Eval(UniqueRec(vars), Extended(a))
    decreases |vars|
  {
    if |vars| <= 4 {
      SmallExact(vars, Extended(a));
    } else {
      GridFits(|vars|);
      var t :| OnlyTrue(vars, Extended(a), t);
      OneLine(vars, a, t);
      UniqueComplete(LineVars(vars), a);
      UniqueComplete(ColVars(vars), a);
      RecEval(vars, Extended(a));
    }
  }

  function Plains(ids: seq<string>): seq<Name> { seq(|ids|, i requires 0 <= i < |ids| => Plain(ids[i])) }

  ghost predicate OnlyId(ids: seq<string>, a: string -> bool, t: int)
  {
    0 <= t < |ids| && a(ids[t]) && forall k :: 0 <= k < |ids| && k != t ==> !a(ids[k])
  }

  ghost predicate Extends(m: Valuation, a: string -> bool) { forall id :: m(Plain(id)) == a(id) }

  // Unique: an assignment of the user's variables extends to the made-up ones exactly when it makes exactly
  // one of them true.
  lemma UniqueExact(ids: seq<string>, a: string -> bool)
    ensures (exists m: Valuation :: Extends(m, a) && Eval(UniqueRec(Plains(ids)), m)) <==> exists t :: OnlyId(ids, a, t)
  {
    hide Eval, UniqueRec;
    var vars := Plains(ids);
    forall m: Valuation | Extends(m, a) ensures ExactlyOne(vars, m) <==> exists t :: OnlyId(ids, a, t) {
      forall t ensures OnlyTrue(vars, m, t) <==> OnlyId(ids, a, t) {
        assert forall k :: 0 <= k < |ids| ==> m(vars[k]) == a(ids[k]);
      }
    }
    var e := Extended(a);
    assert Extends(e, a);
    if exists t :: OnlyId(ids, a, t) {
      UniqueComplete(vars, a);
    }
    forall m: Valuation | Extends(m, a) && Eval(UniqueRec(vars), m) ensures ExactlyOne(vars, m) {
      UniqueSound(vars, m);
    }
  }

  predicate AllPlain(fs: seq<Formula>) { forall i :: 0 <= i < |fs| ==> NoConstants(fs[i]) }

  lemma PlainJoined(fs: seq<Formula>, gs: seq<Formula>)
    requires AllPlain(fs) && AllPlain(gs)
    ensures AllPlain(fs + gs) && (fs + gs != [] ==> NoConstants(And(fs + gs)) && NoConstants(Or(fs + gs)))
  {
    hide NoConstants;
    assert forall i :: 0 <= i < |fs + gs| ==> (fs + gs)[i] == if i < |fs| then fs[i] else gs[i - |fs|];
    ConnectivePlain(fs + gs);
  }

  lemma ConnectivePlain(fs: seq<Formula>)
    ensures fs != [] && AllPlain(fs) ==> NoConstants(And(fs)) && NoConstants(Or(fs))
  {
  }

  lemma IffPlain(v: Name, vars: seq<Name>)
    requires vars != []
    ensures NoConstants(Iff(Var(v), Or(VarsOf(vars))))
  {
    var f, g := Var(v), Or(VarsOf(vars));
    ConnectivePlain(VarsOf(vars));
    assert NoConstants(f) && NoConstants(Not(f)) && NoConstants(g) && NoConstants(Not(g));
    ConnectivePlain([Not(f), g]);
    ConnectivePlain([f, Not(g)]);
    ConnectivePlain([Or([Not(f), g]), Or([f, Not(g)])]);
  }

  // The formula has no constants and no empty connective, so it survives normalisation.
  lemma {:induction false} UniqueNoConstants(vars: seq<Name>)
    requires vars != []
    ensures NoConstants(UniqueRec(vars))
    decreases |vars|
  {
    hide NoConstants, Links, Pairs, Iff;
    if |vars| <= 4 {
      PairsPlain(vars, 0);
      SmallPlain(vars);
    } else {
      GridFits(|vars|);
      var lines, cols, c := LineVars(vars), ColVars(vars), Cols(|vars|);
      UniqueNoConstants(lines);
      UniqueNoConstants(cols);
      NoneEmpty(vars);
      LinksPlain(vars, LineOf(c), lines);
      LinksPlain(vars, ColOf(c), cols);
      PlainJoined(Links(vars, LineOf(c), lines), Links(vars, ColOf(c), cols));
      PlainJoined(Links(vars, LineOf(c), lines) + Links(vars, ColOf(c), cols), [UniqueRec(lines), UniqueRec(cols)]);
    }
  }

  lemma SmallPlain(vars: seq<Name>)
    requires vars != [] && AllPlain(Pairs(vars, 0))
    ensures NoConstants(UniqueSmall(vars))
  {
    ConnectivePlain(VarsOf(vars));
    PlainJoined([Or(VarsOf(vars))], Pairs(vars, 0));
  }

  lemma LinksPlain(vars: seq<Name>, f: nat -> nat, heads: seq<Name>)
    requires forall i :: 0 <= i < |heads| ==> Pick(vars, f, i) != []
    ensures AllPlain(Links(vars, f, heads))
  {
    hide NoConstants, Iff, Pick;
    forall i | 0 <= i < |heads| ensures NoConstants(Links(vars, f, heads)[i]) {
      IffPlain(heads[i], Pick(vars, f, i));
    }
  }

  // The first variable of line i is at position i * c.
  lemma LineStart(n: nat, r: nat, c: nat, i: nat)
    requires c > 0 && i < r && (r - 1) * c < n
    ensures 0 <= i * c < n && LineOf(c)(i * c) == i
  {
    Scale(c, i, r - 1);
    Product(i, c);
  }

  lemma ColStart(c: nat, i: nat)
    requires i < c
    ensures ColOf(c)(i) == i
  {
  }

  lemma NotEmpty(vars: seq<Name>, f: nat -> nat, i: nat, k: nat)
    requires k < |vars| && f(k) == i
    ensures Pick(vars, f, i) != []
  {
    PickEval(vars, f, i, v => true);
  }

  lemma NoneEmpty(vars: seq<Name>)
    requires vars != []
    ensures forall i :: 0 <= i < |LineVars(vars)| ==> Pick(vars, LineOf(Cols(|vars|)), i) != []
    ensures forall i :: 0 <= i < |ColVars(vars)| ==> Pick(vars, ColOf(Cols(|vars|)), i) != []
  {
    hide Lines, Cols, Pick, LineOf, ColOf;
    var n := |vars|;
    var r, c := Lines(n), Cols(n);
    GridFits(n);
    forall i | 0 <= i < r ensures Pick(vars, LineOf(c), i) != [] {
      LineStart(n, r, c, i);
      NotEmpty(vars, LineOf(c), i, i * c);
    }
    forall i | 0 <= i < c ensures Pick(vars, ColOf(c), i) != [] {
      ColStart(c, i);
      NotEmpty(vars, ColOf(c), i, i);
    }
  }

  lemma Product(i: nat, c: nat)
    requires c > 0
    ensures i * c >= 0 && i * c / c == i
  {
    var p := i * c;
    var q := p / c;
    assert p == q * c + p % c;
    assert c * (i - q) == p % c;
    Scale(c, 1, i - q);
    Scale(c, i - q, -1);
  }

  lemma {:induction false} PairsPlain(vars: seq<Name>, i: nat)
    requires i <= |vars|
    ensures AllPlain(Pairs(vars, i))
    decreases |vars| - i
  {
    hide NoConstants;
    if i < |vars| {
      PairsFromPlain(vars, i, i + 1);
      PairsPlain(vars, i + 1);
      PlainJoined(PairsFrom(vars, i, i + 1), Pairs(vars, i + 1));
    }
  }

  lemma {:induction false} PairsFromPlain(vars: seq<Name>, i: nat, j: nat)
    requires i < |vars| && j <= |vars|
    ensures AllPlain(PairsFrom(vars, i, j))
    decreases |vars| - j
  {
    if j < |vars| {
      PairsFromPlain(vars, i, j + 1);
      var subs := [Not(Var(vars[i])), Not(Var(vars[j]))];
      assert NoConstants(subs[0]) && NoConstants(subs[1]);
      ConnectivePlain(subs);
      PlainJoined([NotBoth(vars, i, j)], PairsFrom(vars, i, j + 1));
    }
  }
}
