// The fragment of CnfModels is exact: on formulas in which no variable occurs twice, the translation (bf/bf.go) keeps
// every model if and only if the formula is in the fragment.
module ExactFragment {
  import opened BoolFormula
  import opened CnfModels

  predicate Occurs(f: Formula, v: Name)
  {
    match f
    case Literal(u, _) => u == v
    case And(subs) => exists i :: 0 <= i < |subs| && Occurs(subs[i], v)
    case Or(subs) => exists i :: 0 <= i < |subs| && Occurs(subs[i], v)
    case _ => false
  }

  ghost predicate Apart(f: Formula, g: Formula) { forall v :: !(Occurs(f, v) && Occurs(g, v)) }

  // No variable occurs twice.
  ghost predicate ReadOnce(f: Formula)
  {
    (f.And? || f.Or?) ==>
      (forall i :: 0 <= i < |f.subs| ==> ReadOnce(f.subs[i]))
      && forall i, j :: 0 <= i < j < |f.subs| ==> Apart(f.subs[i], f.subs[j])
  }

  // Every literal of f has the value val.
  predicate LiteralsAre(f: Formula, val: bool, m: Valuation)
  {
    match f
    case Literal(v, signed) => (m(v) != signed) == val
    case And(subs) => forall i :: 0 <= i < |subs| ==> LiteralsAre(subs[i], val, m)
    case Or(subs) => forall i :: 0 <= i < |subs| ==> LiteralsAre(subs[i], val, m)
    case _ => true
  }

  // ----- valuations -----

  lemma {:induction false} UniformValue(f: Formula, val: bool, m: Valuation)
    requires Core(f) && LiteralsAre(f, val, m)
    ensures Eval(f, m) == val
    decreases f
  {
    if f.And? || f.Or? {
      forall i | 0 <= i < |f.subs| ensures Eval(f.subs[i], m) == val {
        UniformValue(f.subs[i], val, m);
      }
      assert Eval(f.subs[0], m) == val;
    }
  }

  lemma {:induction false} LiteralsKept(f: Formula, val: bool, m: Valuation, m': Valuation)
    requires LiteralsAre(f, val, m) && forall v :: Occurs(f, v) ==> m'(v) == m(v)
    ensures LiteralsAre(f, val, m')
    decreases f
  {
    if f.And? || f.Or? {
      forall i | 0 <= i < |f.subs| ensures LiteralsAre(f.subs[i], val, m') {
        LiteralsKept(f.subs[i], val, m, m');
      }
    }
  }

  // All literals can be given the same value, without touching other variables.
  lemma {:induction false} MakeUniform(f: Formula, val: bool, m: Valuation) returns (m': Valuation)
    requires Core(f) && ReadOnce(f)
    ensures LiteralsAre(f, val, m') && forall v :: !Occurs(f, v) ==> m'(v) == m(v)
    decreases f, if f.Literal? then 0 else |f.subs| + 1
  {
    if f.Literal? {
      m' := v => if v == f.v then val != f.signed else m(v);
    } else {
      m' := MakeMembers(f, {}, |f.subs|, val, m);
    }
  }

  // The same for the first k members, those at the positions `but` left out.
  lemma {:induction false} MakeMembers(f: Formula, but: set<int>, k: nat, val: bool, m: Valuation) returns (m': Valuation)
    requires Core(f) && ReadOnce(f) && !f.Literal? && k <= |f.subs|
    ensures forall i :: 0 <= i < k && i !in but ==> LiteralsAre(f.subs[i], val, m')
    ensures forall v :: (forall i :: 0 <= i < k && i !in but ==> !Occurs(f.subs[i], v)) ==> m'(v) == m(v)
    decreases f, k
  {
    if k == 0 {
      m' := m;
    } else {
      m' := MakeMembers(f, but, k - 1, val, m);
      if k - 1 !in but {
        var was := m';
        m' := MakeUniform(f.subs[k - 1], val, was);
        forall i | 0 <= i < k - 1 && i !in but ensures LiteralsAre(f.subs[i], val, m') {
          assert Apart(f.subs[i], f.subs[k - 1]);
          LiteralsKept(f.subs[i], val, was, m');
        }
      }
    }
  }

  // ----- the disjunction that is enforced -----

  // g, a conjunction in the disjunction f, has a member h that is a disjunction with a conjunction in it.
  ghost predicate Deep(f: Formula, i: nat, j: nat)
  {
    f.Or? && i < |f.subs| && f.subs[i].And? && j < |f.subs[i].subs| && !Flat(f.subs[i].subs[j])
  }

  lemma DeepShape(f: Formula, i: nat, j: nat) returns (l: nat)
    requires Core(f) && Deep(f, i, j)
    ensures Core(f.subs[i]) && Core(f.subs[i].subs[j]) && f.subs[i].subs[j].Or?
    ensures l < |f.subs[i].subs[j].subs| && f.subs[i].subs[j].subs[l].And?
  {
    var g := f.subs[i];
    assert Core(g);
    var h := g.subs[j];
    assert Core(h) && !h.And?;
    l :| l < |h.subs| && !h.subs[l].Literal?;
    assert Core(h.subs[l]);
  }

  // If all its literals are false, a disjunction with a conjunction in it does not hold even without its first clause.
  lemma DisjunctionForced(h: Formula, i: nat, m: Valuation)
    requires Core(h) && h.Or? && i < |h.subs| && h.subs[i].And? && LiteralsAre(h, false, m)
    ensures !Survives(h, m, false)
  {
    if Survives(h, m, false) {
      var k :| 0 <= k < |h.subs| && Survives(h.subs[k], m, !FirstAnd(h.subs, k));
      var g := h.subs[k];
      assert Core(g) && LiteralsAre(g, false, m);
      if g.And? {
        assert Core(g.subs[1]) && LiteralsAre(g.subs[1], false, m) && Survives(g.subs[1], m, true);
        UniformValue(g.subs[1], false, m);
        SurvivorsHold(g.subs[1], m);
      }
    }
  }

  lemma DeepForced(f: Formula, i: nat, j: nat, m: Valuation)
    requires Core(f) && Deep(f, i, j) && LiteralsAre(f.subs[i].subs[j], false, m)
    ensures !Survives(f, m, true)
  {
    var l := DeepShape(f, i, j);
    DisjunctionForced(f.subs[i].subs[j], l, m);
  }

  // ----- the models lost -----

  // A model of f that makes the deep disjunction false.
  lemma DeepModel(f: Formula, i: nat, j: nat, m0: Valuation) returns (m: Valuation)
    requires Core(f) && ReadOnce(f) && Deep(f, i, j)
    ensures Eval(f, m) && LiteralsAre(f.subs[i].subs[j], false, m) && forall v :: !Occurs(f, v) ==> m(v) == m0(v)
  {
    var g := f.subs[i];
    var h, o := g.subs[j], if i == 0 then 1 else 0;
    assert Core(g) && Core(h) && Core(f.subs[o]) && ReadOnce(g) && ReadOnce(h) && ReadOnce(f.subs[o]);
    var m1 := MakeUniform(h, false, m0);
    m := MakeUniform(f.subs[o], true, m1);
    assert Apart(f.subs[o], g) by {
      assert Apart(f.subs[if i < o then i else o], f.subs[if i < o then o else i]);
    }
    hide Core, ReadOnce, LiteralsAre, Eval;
    assert forall v :: Occurs(h, v) ==> Occurs(g, v) && Occurs(f, v);
    LiteralsKept(h, false, m1, m);
    ValueOfMember(f, o, m);
  }

  lemma ValueOfMember(f: Formula, o: nat, m: Valuation)
    requires f.Or? && o < |f.subs| && Core(f.subs[o]) && LiteralsAre(f.subs[o], true, m)
    ensures Eval(f, m)
  {
    UniformValue(f.subs[o], true, m);
  }

  lemma AndModel(f: Formula, q: nat, i: nat, j: nat) returns (m: Valuation)
    requires Core(f) && ReadOnce(f) && f.And? && q < |f.subs| && Deep(f.subs[q], i, j)
    ensures Eval(f, m) && LiteralsAre(f.subs[q].subs[i].subs[j], false, m)
  {
    var g := f.subs[q];
    assert Core(g) && ReadOnce(g);
    var m0 := MakeMembers(f, {q}, |f.subs|, true, v => true);
    m := DeepModel(g, i, j, m0);
    forall p | 0 <= p < |f.subs| ensures Eval(f.subs[p], m) {
      if p != q {
        assert Core(f.subs[p]);
        assert Apart(f.subs[if p < q then p else q], f.subs[if p < q then q else p]);
        LiteralsKept(f.subs[p], true, m0, m);
        UniformValue(f.subs[p], true, m);
      }
    }
  }

  // Every model of f is found among the models of its clauses.
  ghost predicate Faithful(f: Formula) { forall m: Valuation :: Eval(f, m) ==> Found(f, m) }

  // The translation keeps every model of a formula without repeated variables if and only if it is in the fragment.
  lemma FragmentExact(f: Formula)
    requires Core(f) && ReadOnce(f)
    ensures Faithful(f) <==> InFragment(f)
  {
    hide Found;
    if InFragment(f) {
      forall m: Valuation | Eval(f, m) ensures Found(f, m) {
        FragmentSurvives(f, m);
        ModelsExact(f, m);
      }
    } else {
      var m := LostModel(f);
      ModelsExact(f, m);
    }
  }

  lemma LostModel(f: Formula) returns (m: Valuation)
    requires Core(f) && ReadOnce(f) && !InFragment(f)
    ensures Eval(f, m) && !Survives(f, m, true)
  {
    if f.Or? {
      var i, j := FindDeep(f);
      m := DeepModel(f, i, j, v => true);
      DeepForced(f, i, j, m);
    } else {
      var q: nat :| q < |f.subs| && !InFragment(f.subs[q]);
      assert Core(f.subs[q]) && !f.subs[q].And?;
      var i, j := FindDeep(f.subs[q]);
      m := AndModel(f, q, i, j);
      DeepForced(f.subs[q], i, j, m);
    }
  }

  lemma FindDeep(f: Formula) returns (i: nat, j: nat)
    requires f.Or? && !InFragment(f)
    ensures Deep(f, i, j)
  {
    i :| i < |f.subs| && f.subs[i].And? && !forall j :: 0 <= j < |f.subs[i].subs| ==> Flat(f.subs[i].subs[j]);
    j :| j < |f.subs[i].subs| && !Flat(f.subs[i].subs[j]);
  }

  // ----- an input that loses a model -----

  function Pos(v: Name): Formula { Literal(v, false) }

  // a or ((b or (c and e)) and g)
  function Nested(a: Name, b: Name, c: Name, e: Name, g: Name): Formula
  {
    Or([Pos(a), And([Or([Pos(b), And([Pos(c), Pos(e)])]), Pos(g)])])
  }

  predicate AllApart(vs: seq<Name>) { forall i, j :: 0 <= i < j < |vs| ==> vs[i] != vs[j] }

  lemma ModelLost(a: Name, b: Name, c: Name, e: Name, g: Name)
    requires AllApart([a, b, c, e, g])
    ensures Normal(Nested(a, b, c, e, g)) && !Faithful(Nested(a, b, c, e, g))
  {
    var vs := [a, b, c, e, g];
    assert vs[0] == a && vs[1] == b && vs[2] == c && vs[3] == e && vs[4] == g;
    NestedShape(a, b, c, e, g);
    FragmentExact(Nested(a, b, c, e, g));
  }

  // A formula with models that is answered unsatisfiable: not b and not e and Nested.
  function Refused(a: Name, b: Name, c: Name, e: Name, g: Name): Formula
  {
    And([Literal(b, true), Literal(e, true), Nested(a, b, c, e, g)])
  }

  lemma WrongAnswer(a: Name, b: Name, c: Name, e: Name, g: Name)
    requires AllApart([a, b, c, e, g])
    ensures var f := Refused(a, b, c, e, g); Normal(f) && (exists m: Valuation :: Eval(f, m)) && forall m: Valuation :: !Found(f, m)
  {
    var vs, f, n := [a, b, c, e, g], Refused(a, b, c, e, g), Nested(a, b, c, e, g);
    assert vs[0] == a && vs[1] == b && vs[2] == c && vs[3] == e && vs[4] == g;
    NestedShape(a, b, c, e, g);
    RefusedModel(a, b, c, e, g);
    assert Core(f.subs[0]) && Core(f.subs[1]) && f.subs[2] == n;
    assert Core(f);
    forall m: Valuation ensures !Found(f, m) {
      ModelsExact(f, m);
      hide Found;
      if Survives(f, m, true) {
        assert Survives(f.subs[0], m, true) && Survives(f.subs[1], m, true) && Survives(f.subs[2], m, true);
        NestedForced(a, b, c, e, g, m);
        assert false;
      }
    }
  }

  lemma RefusedModel(a: Name, b: Name, c: Name, e: Name, g: Name)
    requires a != b && a != e
    ensures exists m: Valuation :: Eval(Refused(a, b, c, e, g), m)
  {
    var m: Valuation, n := v => v == a, Nested(a, b, c, e, g);
    assert Eval(n.subs[0], m) && Eval(n, m);
    assert Eval(Refused(a, b, c, e, g), m);
  }

  lemma NestedForced(a: Name, b: Name, c: Name, e: Name, g: Name, m: Valuation)
    requires Survives(Nested(a, b, c, e, g), m, true)
    ensures m(b) || m(e)
  {
    var n := Nested(a, b, c, e, g);
    var outer := n.subs[1];
    var middle := outer.subs[0];
    assert n.subs[1].And? && Survives(outer.subs[0], m, false);
    assert middle.subs[1].And?;
    var i :| 0 <= i < 2 && Survives(middle.subs[i], m, !FirstAnd(middle.subs, i));
    if i == 1 {
      assert Survives(middle.subs[1].subs[1], m, true);
    }
  }

  lemma PairShape(f: Formula, g: Formula, fs: set<Name>, gs: set<Name>)
    requires Core(f) && Core(g) && ReadOnce(f) && ReadOnce(g) && Over(f, fs) && Over(g, gs) && fs !! gs
    ensures !f.And? && !g.And? ==> Core(And([f, g])) && ReadOnce(And([f, g])) && Over(And([f, g]), fs + gs)
    ensures !f.Or? && !g.Or? ==> Core(Or([f, g])) && ReadOnce(Or([f, g])) && Over(Or([f, g]), fs + gs)
  {
    assert [f, g][0] == f && [f, g][1] == g && Apart(f, g);
  }

  // The variables of f are all in vs.
  ghost predicate Over(f: Formula, vs: set<Name>) { forall v :: Occurs(f, v) ==> v in vs }

  lemma PosShape(v: Name)
    ensures Core(Pos(v)) && ReadOnce(Pos(v)) && Over(Pos(v), {v})
  {
  }

  lemma NestedShape(a: Name, b: Name, c: Name, e: Name, g: Name)
    requires a != b && a != c && a != e && a != g && b != c && b != e && b != g && c != e && c != g && e != g
    ensures var f := Nested(a, b, c, e, g); Core(f) && ReadOnce(f) && !InFragment(f)
  {
    var inner := And([Pos(c), Pos(e)]);
    var middle := Or([Pos(b), inner]);
    var outer := And([middle, Pos(g)]);
    assert middle.subs[1] == inner && outer.subs[0] == middle && Nested(a, b, c, e, g).subs[1] == outer;
    PosShape(a);
    PosShape(b);
    PosShape(c);
    PosShape(e);
    PosShape(g);
    hide Core, ReadOnce, Over;
    PairShape(Pos(c), Pos(e), {c}, {e});
    PairShape(Pos(b), inner, {b}, {c} + {e});
    PairShape(middle, Pos(g), {b} + ({c} + {e}), {g});
    PairShape(Pos(a), outer, {a}, {b} + ({c} + {e}) + {g});
  }
}
