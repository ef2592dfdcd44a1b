// What the clauses of Cnf mean: which models of a formula in normal form are found among the models of its clauses
// (bf/bf.go), said without the clauses.
module CnfModels {
  import opened BoolFormula
  import opened Cnf

  // ----- the models that survive -----

  predicate FirstAnd(subs: seq<Formula>, i: int) { 0 <= i < |subs| && subs[i].And? && forall j :: 0 <= j < i ==> !subs[j].And? }

  // For a formula in normal form: m goes with some values of the dummies that make all clauses true or, unless `whole`,
  // all clauses but the first, the one that is weakened when f stands in a conjunction below a disjunction.
  // A disjunction asks more than a true member: each conjunction in it must hold but for first clauses.
  predicate Survives(f: Formula, m: Valuation, whole: bool)
  {
    match f
    case Top => true
    case Literal(v, signed) => whole ==> m(v) != signed
    case And(subs) => forall i :: 0 <= i < |subs| ==> Survives(subs[i], m, whole || i > 0)
    case Or(subs) =>
      (!whole && forall i :: 0 <= i < |subs| ==> !subs[i].And?)
      || ((forall i :: 0 <= i < |subs| && subs[i].And? ==>
             forall j :: 0 <= j < |subs[i].subs| ==> Survives(subs[i].subs[j], m, false))
          && exists i :: 0 <= i < |subs| && Survives(subs[i], m, whole || !FirstAnd(subs, i)))
    case _ => !whole
  }

  // Every variable of f has a number.
  ghost predicate Numbered(f: Formula, t: Table)
  {
    match f
    case Top => true
    case Bottom => true
    case Var(v) => Named(v) in t
    case Literal(v, _) => Named(v) in t
    case Not(g) => Numbered(g, t)
    case And(subs) => forall i :: 0 <= i < |subs| ==> Numbered(subs[i], t)
    case Or(subs) => forall i :: 0 <= i < |subs| ==> Numbered(subs[i], t)
  }

  // The literals of cs are numbers given up to n.
  ghost predicate Within(cs: seq<IntClause>, n: int)
  {
    forall c, x :: c in cs && x in c ==> 1 <= x <= n || 1 <= -x <= n
  }

  // b and b' differ on no variable but the dummies numbered after n.
  ghost predicate SameButDummies(b: Bits, b': Bits, t: Table, n: int)
  {
    forall i: int :: !(i > n && Dummy(i) in t) ==> b(i) == b'(i)
  }

  // All clauses, or all but the first, are true.
  ghost predicate Holds(cs: seq<IntClause>, b: Bits, whole: bool)
  {
    forall i :: (if whole then 0 else 1) <= i < |cs| ==> ClauseTrue(cs[i], b)
  }

  // They can be made true by the dummies numbered after n.
  ghost predicate Reach(cs: seq<IntClause>, b: Bits, t: Table, n: int, whole: bool)
  {
    exists b': Bits :: SameButDummies(b, b', t, n) && Holds(cs, b', whole)
  }

  // ----- basic facts -----

  lemma {:induction false} SurvivesAgrees(f: Formula, m: Valuation, m': Valuation, t: Table, whole: bool)
    requires Numbered(f, t) && forall v :: Named(v) in t ==> m(v) == m'(v)
    ensures Survives(f, m, whole) == Survives(f, m', whole)
    decreases f
  {
    match f
    case And(subs) => forall i | 0 <= i < |subs| { SurvivesAgrees(subs[i], m, m', t, whole || i > 0); }
    case Or(subs) =>
      forall i, w: bool | 0 <= i < |subs| ensures Survives(subs[i], m, w) == Survives(subs[i], m', w) {
        SurvivesAgrees(subs[i], m, m', t, w);
      }
      forall i, j | 0 <= i < |subs| && subs[i].And? && 0 <= j < |subs[i].subs|
        ensures Survives(subs[i].subs[j], m, false) == Survives(subs[i].subs[j], m', false)
      {
        assert Numbered(subs[i], t);
        SurvivesAgrees(subs[i].subs[j], m, m', t, false);
      }
    case _ =>
  }

  lemma NotDummy(t: Table, v: Name)
    requires TableOk(t) && Named(v) in t
    ensures Dummy(t[Named(v)]) !in t
  {
    assert Dummy(t[Named(v)]) != Named(v);
  }

  // Changing dummies changes nothing for the formula's variables, and neither do numbers given later.
  lemma SurvivesSame(f: Formula, t: Table, b: Bits, b': Bits, n: int, whole: bool)
    requires TableOk(t) && Numbered(f, t) && SameButDummies(b, b', t, n)
    ensures Survives(f, Read(t, b), whole) == Survives(f, Read(t, b'), whole)
  {
    forall v | Named(v) in t ensures Read(t, b)(v) == Read(t, b')(v) {
      NotDummy(t, v);
    }
    SurvivesAgrees(f, Read(t, b), Read(t, b'), t, whole);
  }

  lemma {:induction false} NumberedGrows(f: Formula, t: Table, t': Table)
    requires Numbered(f, t) && Grown(t, t')
    ensures Numbered(f, t')
    decreases f
  {
    match f
    case Not(g) => NumberedGrows(g, t, t');
    case And(subs) => forall i | 0 <= i < |subs| { NumberedGrows(subs[i], t, t'); }
    case Or(subs) => forall i | 0 <= i < |subs| { NumberedGrows(subs[i], t, t'); }
    case _ =>
  }

  lemma SurvivesGrows(f: Formula, t: Table, t': Table, b: Bits, whole: bool)
    requires Numbered(f, t) && Grown(t, t')
    ensures Numbered(f, t') && Survives(f, Read(t, b), whole) == Survives(f, Read(t', b), whole)
  {
    NumberedGrows(f, t, t');
    SurvivesAgrees(f, Read(t, b), Read(t', b), t, whole);
  }

  lemma GrownTwice(t: Table, t': Table, t'': Table)
    requires Grown(t, t') && Grown(t', t'')
    ensures Grown(t, t'')
  {
  }

  // Clauses do not see variables numbered later.
  lemma HoldsKept(cs: seq<IntClause>, b: Bits, b': Bits, n: int, whole: bool)
    requires Within(cs, n) && forall i: int :: 1 <= i <= n ==> b(i) == b'(i)
    ensures Holds(cs, b, whole) <==> Holds(cs, b', whole)
  {
    forall i | 0 <= i < |cs| ensures ClauseTrue(cs[i], b) <==> ClauseTrue(cs[i], b') {
      assert cs[i] in cs;
      assert forall x :: x in cs[i] ==> (LitTrue(x, b) <==> LitTrue(x, b'));
    }
  }

  lemma HoldsConcat(cs: seq<IntClause>, ds: seq<IntClause>, b: Bits, whole: bool)
    ensures Holds(cs + ds, b, whole) <==> Holds(cs, b, whole) && Holds(ds, b, whole || cs != [])
  {
    var es := cs + ds;
    assert forall i :: 0 <= i < |cs| ==> es[i] == cs[i];
    assert forall i :: 0 <= i < |ds| ==> es[|cs| + i] == ds[i];
  }

  lemma HoldsAll(cs: seq<IntClause>, b: Bits)
    ensures AllClauses(cs, b) <==> Holds(cs, b, true)
  {
  }

  lemma ClauseOneMore(c: IntClause, x: int, b: Bits)
    ensures ClauseTrue(c + [x], b) <==> ClauseTrue(c, b) || LitTrue(x, b)
  {
    assert forall y :: y in c + [x] <==> y in c || y == x;
  }

  lemma WithinConcat(cs: seq<IntClause>, ds: seq<IntClause>, n: int, n': int)
    requires Within(cs, n) && Within(ds, n') && n <= n'
    ensures Within(cs + ds, n')
  {
  }

  // ----- conjunctions, guarded or not -----

  // Below a disjunction every member is guarded by the dummy d; d is 0 for a conjunction that is not.
  function GuardedBy(cs: seq<IntClause>, d: int): seq<IntClause> { if d == 0 then cs else Guarded(cs, d) }

  function Value(b: Bits, d: int): bool { d == 0 || b(d) }

  // The guard takes its effect on the first clause only.
  lemma GuardHolds(cs: seq<IntClause>, d: int, b: Bits, whole: bool)
    requires cs != [] && d >= 0
    ensures Holds(GuardedBy(cs, d), b, whole) <==> Holds(cs, b, whole && Value(b, d))
  {
    if d > 0 {
      var gs := Guarded(cs, d);
      ClauseOneMore(cs[0], -d, b);
      assert gs[0] == cs[0] + [-d] && forall i :: 1 <= i < |cs| ==> gs[i] == cs[i];
    }
  }

  // The first k members survive, the first of them in full only if `whole`, and all of them in full only if val.
  predicate Members(subs: seq<Formula>, k: nat, m: Valuation, whole: bool, val: bool)
    requires k <= |subs|
  {
    forall i :: 0 <= i < k ==> Survives(subs[i], m, val && (whole || i > 0))
  }

  ghost predicate Shape(subs: seq<Formula>, k: nat, cs: seq<IntClause>, t: Table, t': Table)
  {
    k <= |subs| && TableOk(t') && Grown(t, t') && Within(cs, |t'|) && forall i :: 0 <= i < k ==> Numbered(subs[i], t')
  }

  // What the clauses of the first k members mean.
  ghost predicate Means(subs: seq<Formula>, k: nat, cs: seq<IntClause>, d: int, t: Table, t': Table, whole: bool)
    requires k <= |subs|
  {
    (forall b: Bits :: Holds(cs, b, whole) ==> Members(subs, k, Read(t', b), whole, Value(b, d)))
    && forall b: Bits :: Members(subs, k, Read(t', b), whole, Value(b, d)) ==> Reach(cs, b, t', |t|, whole)
  }

  // What the clauses of one formula mean.
  ghost predicate Meaning(f: Formula, cs: seq<IntClause>, t: Table, t': Table, whole: bool)
  {
    (forall b: Bits :: Holds(cs, b, whole) ==> Survives(f, Read(t', b), whole))
    && forall b: Bits :: Survives(f, Read(t', b), whole) ==> Reach(cs, b, t', |t|, whole)
  }

  ghost predicate Translates(f: Formula, cs: seq<IntClause>, t: Table, t': Table)
  {
    TableOk(t') && Grown(t, t') && Within(cs, |t'|) && Numbered(f, t') && forall w: bool :: Meaning(f, cs, t, t', w)
  }

  lemma NoMembers(subs: seq<Formula>, d: int, t: Table, whole: bool)
    requires TableOk(t)
    ensures Shape(subs, 0, [], t, t) && Means(subs, 0, [], d, t, t, whole)
  {
    forall b: Bits ensures Reach([], b, t, |t|, whole) {
      assert SameButDummies(b, b, t, |t|) && Holds([], b, whole);
    }
  }

  lemma ShapeMore(subs: seq<Formula>, k: nat, cs: seq<IntClause>, ds: seq<IntClause>, d: int, t: Table, t': Table, t'': Table)
    requires k < |subs| && Shape(subs, k, cs, t, t') && Translates(subs[k], ds, t', t'') && ds != [] && 0 <= d <= |t|
    ensures Shape(subs, k + 1, cs + GuardedBy(ds, d), t, t'')
  {
    hide Meaning, TableOk;
    GrownTwice(t, t', t'');
    GuardedWithin(ds, d, |t''|);
    WithinConcat(cs, GuardedBy(ds, d), |t'|, |t''|);
    forall i | 0 <= i < k ensures Numbered(subs[i], t'') {
      NumberedGrows(subs[i], t', t'');
    }
  }

  lemma GuardedWithin(cs: seq<IntClause>, d: int, n: int)
    requires Within(cs, n) && 0 <= d <= n
    ensures Within(GuardedBy(cs, d), n)
  {
    if cs != [] {
      assert cs[0] in cs;
    }
  }

  // Members read the same in the larger table.
  lemma MembersGrow(subs: seq<Formula>, k: nat, cs: seq<IntClause>, t: Table, t': Table, t'': Table, b: Bits, whole: bool, val: bool)
    requires Shape(subs, k, cs, t, t') && Grown(t', t'')
    ensures Members(subs, k, Read(t', b), whole, val) <==> Members(subs, k, Read(t'', b), whole, val)
  {
    forall i | 0 <= i < k
      ensures Survives(subs[i], Read(t', b), val && (whole || i > 0)) == Survives(subs[i], Read(t'', b), val && (whole || i > 0))
    {
      SurvivesGrows(subs[i], t', t'', b, val && (whole || i > 0));
    }
  }

  lemma MembersStep(subs: seq<Formula>, k: nat, m: Valuation, whole: bool, val: bool)
    requires k < |subs|
    ensures Members(subs, k + 1, m, whole, val)
            <==> Members(subs, k, m, whole, val) && Survives(subs[k], m, val && (whole || k > 0))
  {
  }

  lemma MeansMore(subs: seq<Formula>, k: nat, cs: seq<IntClause>, ds: seq<IntClause>, d: int, t: Table, t': Table, t'': Table,
                  whole: bool)
    requires k < |subs| && Shape(subs, k, cs, t, t') && (cs != [] <==> k > 0) && Means(subs, k, cs, d, t, t', whole)
    requires Translates(subs[k], ds, t', t'') && ds != [] && 0 <= d <= |t|
    ensures Means(subs, k + 1, cs + GuardedBy(ds, d), d, t, t'', whole)
  {
    var es := cs + GuardedBy(ds, d);
    hide Survives, Members, TableOk, GuardedBy, Value, Holds, Numbered, Within;
    forall b: Bits | Holds(es, b, whole) ensures Members(subs, k + 1, Read(t'', b), whole, Value(b, d)) {
      HoldsConcat(cs, GuardedBy(ds, d), b, whole);
      GuardHolds(ds, d, b, whole || k > 0);
      MembersGrow(subs, k, cs, t, t', t'', b, whole, Value(b, d));
      MembersStep(subs, k, Read(t'', b), whole, Value(b, d));
      assert Meaning(subs[k], ds, t', t'', (whole || k > 0) && Value(b, d));
    }
    forall b: Bits | Members(subs, k + 1, Read(t'', b), whole, Value(b, d)) ensures Reach(es, b, t'', |t|, whole) {
      MembersGrow(subs, k, cs, t, t', t'', b, whole, Value(b, d));
      MembersStep(subs, k, Read(t'', b), whole, Value(b, d));
      ReachMore(subs, k, cs, ds, d, t, t', t'', b, whole);
    }
  }

  // The dummies of the clauses so far are chosen first, then those of the next member.
  lemma ReachMore(subs: seq<Formula>, k: nat, cs: seq<IntClause>, ds: seq<IntClause>, d: int, t: Table, t': Table, t'': Table,
                  b: Bits, whole: bool)
    requires k < |subs| && Shape(subs, k, cs, t, t') && (cs != [] <==> k > 0) && Reach(cs, b, t', |t|, whole)
    requires Translates(subs[k], ds, t', t'') && ds != [] && 0 <= d <= |t|
    requires Survives(subs[k], Read(t'', b), Value(b, d) && (whole || k > 0))
    ensures Reach(cs + GuardedBy(ds, d), b, t'', |t|, whole)
  {
    hide Survives, Holds, Numbered, GuardedBy, TableOk, Grown, Within, Read, SameButDummies, Meaning, Value;
    var b1: Bits :| SameButDummies(b, b1, t', |t|) && Holds(cs, b1, whole);
    var w := (whole || k > 0) && Value(b, d);
    TableSizes(t, t');
    SameLater(b, b1, t', t'', |t|);
    SurvivesSame(subs[k], t'', b, b1, |t|, w);
    MeaningReach(subs[k], ds, t', t'', b1, w);
    var b2: Bits :| SameButDummies(b1, b2, t'', |t'|) && Holds(ds, b2, w);
    SameTwice(b, b1, b2, t'', |t|, |t'|);
    HoldsKept(cs, b1, b2, |t'|, whole);
    SameValue(b, b1, b2, t'', |t|, |t'|, d);
    GuardHolds(ds, d, b2, whole || k > 0);
    HoldsConcat(cs, GuardedBy(ds, d), b2, whole);
  }

  lemma MeaningReach(f: Formula, cs: seq<IntClause>, t: Table, t': Table, b: Bits, whole: bool)
    requires Translates(f, cs, t, t') && Survives(f, Read(t', b), whole)
    ensures Reach(cs, b, t', |t|, whole)
  {
    assert Meaning(f, cs, t, t', whole);
  }

  lemma SameValue(b: Bits, b1: Bits, b2: Bits, t: Table, n: int, n': int, d: int)
    requires SameButDummies(b, b1, t, n) && SameButDummies(b1, b2, t, n') && d <= n <= n'
    ensures Value(b2, d) == Value(b, d)
  {
  }

  ghost predicate BothMean(subs: seq<Formula>, cs: seq<IntClause>, d: int, t: Table, t': Table)
  {
    Means(subs, |subs|, cs, d, t, t', true) && Means(subs, |subs|, cs, d, t, t', false)
  }

  // The clauses so far in a larger table.
  lemma ShapeGrows(subs: seq<Formula>, k: nat, cs: seq<IntClause>, t: Table, t': Table, t'': Table)
    requires Shape(subs, k, cs, t, t') && Grown(t', t'') && TableOk(t'')
    ensures Shape(subs, k, cs, t, t'')
  {
    hide TableOk;
    GrownTwice(t, t', t'');
    forall i | 0 <= i < k ensures Numbered(subs[i], t'') {
      NumberedGrows(subs[i], t', t'');
    }
    assert |t'| <= |t''|;
    hide Grown;
  }

  // ----- disjunctions -----

  ghost predicate ClauseWithin(c: IntClause, n: int) { forall x :: x in c ==> 1 <= x <= n || 1 <= -x <= n }

  // Each conjunction among the first k members holds but for first clauses.
  predicate Slack(subs: seq<Formula>, k: nat, m: Valuation)
    requires k <= |subs|
  {
    forall i :: 0 <= i < k && subs[i].And? ==> forall j :: 0 <= j < |subs[i].subs| ==> Survives(subs[i].subs[j], m, false)
  }

  predicate Chosen(subs: seq<Formula>, k: nat, m: Valuation, whole: bool)
    requires k <= |subs|
  {
    exists i :: 0 <= i < k && Survives(subs[i], m, whole || !FirstAnd(subs, i))
  }

  ghost predicate OrShape(subs: seq<Formula>, k: nat, res: seq<IntClause>, lits: IntClause, t: Table, t': Table)
  {
    Shape(subs, k, res, t, t') && ClauseWithin(lits, |t'|) && (res == [] <==> NoAnds(subs, k))
  }

  predicate NoAnds(subs: seq<Formula>, k: nat)
    requires k <= |subs|
  {
    forall i :: 0 <= i < k ==> !subs[i].And?
  }

  lemma NoAndsNext(subs: seq<Formula>, k: nat)
    requires k < |subs|
    ensures NoAnds(subs, k + 1) <==> NoAnds(subs, k) && !subs[k].And?
    ensures subs[k].And? ==> (FirstAnd(subs, k) <==> NoAnds(subs, k))
  {
  }

  lemma ClauseWithinMore(c: IntClause, n: int, x: int, n': int)
    requires ClauseWithin(c, n) && n <= n' && (1 <= x <= n' || 1 <= -x <= n')
    ensures ClauseWithin(c + [x], n')
  {
  }

  ghost predicate OrMeans(subs: seq<Formula>, k: nat, res: seq<IntClause>, lits: IntClause, t: Table, t': Table, whole: bool)
    requires k <= |subs|
  {
    (forall b: Bits :: Holds(res, b, whole) ==> OrHolds(subs, k, lits, t', b, whole))
    && forall b: Bits :: Slack(subs, k, Read(t', b)) ==> OrReach(subs, k, res, lits, t, t', b, whole)
  }

  ghost predicate OrHolds(subs: seq<Formula>, k: nat, lits: IntClause, t: Table, b: Bits, whole: bool)
    requires k <= |subs|
  {
    Slack(subs, k, Read(t, b)) && (ClauseTrue(lits, b) ==> Chosen(subs, k, Read(t, b), whole))
  }

  ghost predicate OrReach(subs: seq<Formula>, k: nat, res: seq<IntClause>, lits: IntClause, t: Table, t': Table, b: Bits, whole: bool)
    requires k <= |subs|
  {
    exists b': Bits ::
      SameButDummies(b, b', t', |t|) && Holds(res, b', whole) && (Chosen(subs, k, Read(t', b), whole) ==> ClauseTrue(lits, b'))
  }

  lemma NoDisjuncts(subs: seq<Formula>, t: Table, whole: bool)
    requires TableOk(t)
    ensures OrShape(subs, 0, [], [], t, t) && OrMeans(subs, 0, [], [], t, t, whole)
  {
    forall b: Bits ensures OrReach(subs, 0, [], [], t, t, b, whole) {
      assert SameButDummies(b, b, t, |t|) && Holds([], b, whole);
    }
  }

  lemma {:induction false} SurvivesWeaker(f: Formula, m: Valuation)
    requires Survives(f, m, true)
    ensures Survives(f, m, false)
    decreases f
  {
    if f.And? {
      if f.subs != [] {
        SurvivesWeaker(f.subs[0], m);
      }
    } else if f.Or? {
      var i :| 0 <= i < |f.subs| && Survives(f.subs[i], m, true);
      SurvivesWeaker(f.subs[i], m);
      assert Survives(f.subs[i], m, !FirstAnd(f.subs, i));
    }
  }

  lemma SlackGrows(subs: seq<Formula>, k: nat, t: Table, t': Table, b: Bits)
    requires k <= |subs| && Grown(t, t') && forall i :: 0 <= i < k ==> Numbered(subs[i], t)
    ensures Slack(subs, k, Read(t, b)) <==> Slack(subs, k, Read(t', b))
  {
    forall i, j | 0 <= i < k && subs[i].And? && 0 <= j < |subs[i].subs|
      ensures Survives(subs[i].subs[j], Read(t, b), false) == Survives(subs[i].subs[j], Read(t', b), false)
    {
      assert Numbered(subs[i], t);
      SurvivesGrows(subs[i].subs[j], t, t', b, false);
    }
  }

  lemma ChosenGrows(subs: seq<Formula>, k: nat, t: Table, t': Table, b: Bits, whole: bool)
    requires k <= |subs| && Grown(t, t') && forall i :: 0 <= i < k ==> Numbered(subs[i], t)
    ensures Chosen(subs, k, Read(t, b), whole) <==> Chosen(subs, k, Read(t', b), whole)
  {
    forall i, w: bool | 0 <= i < k ensures Survives(subs[i], Read(t, b), w) == Survives(subs[i], Read(t', b), w) {
      SurvivesGrows(subs[i], t, t', b, w);
    }
  }

  lemma ClauseKept(c: IntClause, b: Bits, b': Bits, n: int)
    requires ClauseWithin(c, n) && forall i: int :: 1 <= i <= n ==> b(i) == b'(i)
    ensures ClauseTrue(c, b) <==> ClauseTrue(c, b')
  {
    assert forall x :: x in c ==> (LitTrue(x, b) <==> LitTrue(x, b'));
  }

  // ----- a literal in a disjunction -----

  lemma NamedTable(t: Table, v: Name)
    requires TableOk(t)
    ensures TableOk(WithName(t, v)) && Grown(t, WithName(t, v)) && Named(v) in WithName(t, v)
    ensures 1 <= WithName(t, v)[Named(v)] <= |WithName(t, v)|
  {
  }

  lemma LiteralSurvives(v: Name, signed: bool, t: Table, b: Bits)
    requires TableOk(t) && Named(v) in t
    ensures Survives(Literal(v, signed), Read(t, b), true) <==> LitTrue(Signed(v, signed, t), b)
  {
  }

  lemma LiteralShape(subs: seq<Formula>, k: nat, res: seq<IntClause>, lits: IntClause, t: Table, t': Table)
    requires k < |subs| && OrShape(subs, k, res, lits, t, t') && subs[k].Literal?
    ensures var t'' := WithName(t', subs[k].v);
            && Named(subs[k].v) in t''
            && OrShape(subs, k + 1, res, lits + [Signed(subs[k].v, subs[k].signed, t'')], t, t'')
  {
    hide TableOk, Grown, Within, NoAnds, ClauseWithin, WithName;
    var t'' := WithName(t', subs[k].v);
    NamedTable(t', subs[k].v);
    ShapeGrows(subs, k, res, t, t', t'');
    TableSizes(t', t'');
    NoAndsNext(subs, k);
    ClauseWithinMore(lits, |t'|, Signed(subs[k].v, subs[k].signed, t''), |t''|);
  }

  lemma TableSizes(t: Table, t': Table)
    requires Grown(t, t')
    ensures |t| <= |t'|
  {
  }

  lemma LiteralMeans(subs: seq<Formula>, k: nat, res: seq<IntClause>, lits: IntClause, t: Table, t': Table, whole: bool)
    requires k < |subs| && OrShape(subs, k, res, lits, t, t') && OrMeans(subs, k, res, lits, t, t', whole) && subs[k].Literal?
    ensures var t'' := WithName(t', subs[k].v);
            && Named(subs[k].v) in t''
            && OrMeans(subs, k + 1, res, lits + [Signed(subs[k].v, subs[k].signed, t'')], t, t'', whole)
  {
    NamedTable(t', subs[k].v);
    var t'' := WithName(t', subs[k].v);
    var x := Signed(subs[k].v, subs[k].signed, t'');
    hide *;
    LiteralHolds(subs, k, res, lits, t, t', t'', x, whole);
    LiteralReach(subs, k, res, lits, t, t', t'', x, whole);
    OrMeansIs(subs, k + 1, res, lits + [x], t, t'', whole);
  }

  lemma OrMeansIs(subs: seq<Formula>, k: nat, res: seq<IntClause>, lits: IntClause, t: Table, t': Table, whole: bool)
    requires k <= |subs| && forall b: Bits :: Holds(res, b, whole) ==> OrHolds(subs, k, lits, t', b, whole)
    requires forall b: Bits :: Slack(subs, k, Read(t', b)) ==> OrReach(subs, k, res, lits, t, t', b, whole)
    ensures OrMeans(subs, k, res, lits, t, t', whole)
  {
    hide OrHolds, OrReach, Slack, Holds;
  }

  // A literal adds nothing to what the conjunctions ask, and may be the member chosen.
  lemma LiteralStep(subs: seq<Formula>, k: nat, m: Valuation, whole: bool)
    requires k < |subs| && subs[k].Literal?
    ensures Slack(subs, k + 1, m) <==> Slack(subs, k, m)
    ensures Chosen(subs, k + 1, m, whole) <==> Chosen(subs, k, m, whole) || Survives(subs[k], m, true)
  {
    hide Survives;
    assert !FirstAnd(subs, k);
  }

  lemma LiteralHolds(subs: seq<Formula>, k: nat, res: seq<IntClause>, lits: IntClause, t: Table, t': Table, t'': Table, x: int,
                     whole: bool)
    requires k < |subs| && OrShape(subs, k, res, lits, t, t') && OrMeans(subs, k, res, lits, t, t', whole) && subs[k].Literal?
    requires TableOk(t'') && Grown(t', t'') && Named(subs[k].v) in t'' && x == Signed(subs[k].v, subs[k].signed, t'')
    ensures forall b: Bits :: Holds(res, b, whole) ==> OrHolds(subs, k + 1, lits + [x], t'', b, whole)
  {
    forall b: Bits | Holds(res, b, whole) ensures OrHolds(subs, k + 1, lits + [x], t'', b, whole) {
      assert OrHolds(subs, k, lits, t', b, whole);
      SlackGrows(subs, k, t', t'', b);
      ChosenGrows(subs, k, t', t'', b, whole);
      hide Survives, Holds, Signed, TableOk, Slack, Chosen, Grown;
      LiteralSurvives(subs[k].v, subs[k].signed, t'', b);
      ClauseOneMore(lits, x, b);
      LiteralStep(subs, k, Read(t'', b), whole);
    }
  }

  lemma LiteralReach(subs: seq<Formula>, k: nat, res: seq<IntClause>, lits: IntClause, t: Table, t': Table, t'': Table, x: int,
                     whole: bool)
    requires k < |subs| && OrShape(subs, k, res, lits, t, t') && OrMeans(subs, k, res, lits, t, t', whole) && subs[k].Literal?
    requires TableOk(t'') && Grown(t', t'') && Named(subs[k].v) in t'' && x == Signed(subs[k].v, subs[k].signed, t'')
    ensures forall b: Bits :: Slack(subs, k + 1, Read(t'', b)) ==> OrReach(subs, k + 1, res, lits + [x], t, t'', b, whole)
  {
    hide Survives, Holds, Signed, Slack, Chosen, TableOk, Grown, Within, ClauseWithin, NoAnds, Read, SameButDummies, ClauseTrue;
    forall b: Bits | Slack(subs, k + 1, Read(t'', b)) ensures OrReach(subs, k + 1, res, lits + [x], t, t'', b, whole) {
      SlackGrows(subs, k, t', t'', b);
      ChosenGrows(subs, k, t', t'', b, whole);
      LiteralStep(subs, k, Read(t'', b), whole);
      var b1: Bits :| SameButDummies(b, b1, t', |t|) && Holds(res, b1, whole)
                      && (Chosen(subs, k, Read(t', b), whole) ==> ClauseTrue(lits, b1));
      SameLater(b, b1, t', t'', |t|);
      SurvivesSame(subs[k], t'', b, b1, |t|, true);
      LiteralSurvives(subs[k].v, subs[k].signed, t'', b1);
      ClauseOneMore(lits, x, b1);
    }
  }

  lemma SameLater(b: Bits, b': Bits, t: Table, t': Table, n: int)
    requires SameButDummies(b, b', t, n) && Grown(t, t')
    ensures SameButDummies(b, b', t', n)
  {
  }

  // ----- a conjunction in a disjunction -----

  lemma DummyTable(t: Table)
    requires TableOk(t)
    ensures TableOk(WithDummy(t)) && Grown(t, WithDummy(t)) && Dummy(|t| + 1) in WithDummy(t) && |WithDummy(t)| == |t| + 1
  {
    assert Dummy(|t| + 1) !in t;
  }

  lemma ConjunctionShape(subs: seq<Formula>, k: nat, res: seq<IntClause>, lits: IntClause, gs: seq<IntClause>, t: Table, t': Table,
                         t'': Table)
    requires k < |subs| && OrShape(subs, k, res, lits, t, t') && subs[k].And? && gs != []
    requires Shape(subs[k].subs, |subs[k].subs|, gs, WithDummy(t'), t'')
    ensures Grown(t', t'') && OrShape(subs, k + 1, res + gs, lits + [|t'| + 1], t, t'')
  {
    hide TableOk, Grown, Within, NoAnds, ClauseWithin, WithDummy;
    DummyTable(t');
    GrownTwice(t', WithDummy(t'), t'');
    ShapeGrows(subs, k, res, t, t', t'');
    TableSizes(WithDummy(t'), t'');
    NoAndsNext(subs, k);
    WithinConcat(res, gs, |t''|, |t''|);
    ClauseWithinMore(lits, |t'|, |t'| + 1, |t''|);
  }

  // Its own part: the dummy true or false, as for its members.
  lemma MembersSurvive(g: Formula, m: Valuation, whole: bool)
    requires g.And?
    ensures Members(g.subs, |g.subs|, m, whole, true) <==> Survives(g, m, whole)
    ensures Members(g.subs, |g.subs|, m, whole, false) <==> forall j :: 0 <= j < |g.subs| ==> Survives(g.subs[j], m, false)
    ensures Survives(g, m, whole) ==> forall j :: 0 <= j < |g.subs| ==> Survives(g.subs[j], m, false)
  {
    if Survives(g, m, whole) {
      forall j | 0 <= j < |g.subs| ensures Survives(g.subs[j], m, false) {
        if Survives(g.subs[j], m, true) {
          SurvivesWeaker(g.subs[j], m);
        }
      }
    }
  }

  // A conjunction asks for slack, and may be the member chosen.
  lemma ConjunctionStep(subs: seq<Formula>, k: nat, m: Valuation, whole: bool)
    requires k < |subs| && subs[k].And?
    ensures Slack(subs, k + 1, m)
            <==> Slack(subs, k, m) && forall j :: 0 <= j < |subs[k].subs| ==> Survives(subs[k].subs[j], m, false)
    ensures Chosen(subs, k + 1, m, whole) <==> Chosen(subs, k, m, whole) || Survives(subs[k], m, whole || !FirstAnd(subs, k))
  {
    hide Survives;
  }

  // The clauses of the conjunction at k come first only if no other conjunction does.
  lemma WholeAfter(subs: seq<Formula>, k: nat, res: seq<IntClause>, lits: IntClause, t: Table, t': Table)
    requires k < |subs| && OrShape(subs, k, res, lits, t, t') && subs[k].And?
    ensures FirstAnd(subs, k) <==> res == []
  {
    NoAndsNext(subs, k);
    hide Shape, ClauseWithin, NoAnds, FirstAnd;
  }

  lemma ConjunctionHolds(subs: seq<Formula>, k: nat, res: seq<IntClause>, lits: IntClause, gs: seq<IntClause>, t: Table, t': Table,
                         t'': Table, whole: bool, b: Bits)
    requires k < |subs| && OrShape(subs, k, res, lits, t, t') && OrMeans(subs, k, res, lits, t, t', whole) && subs[k].And?
    requires Grown(t', t'') && BothMean(subs[k].subs, gs, |t'| + 1, WithDummy(t'), t'') && Holds(res + gs, b, whole)
    ensures OrHolds(subs, k + 1, lits + [|t'| + 1], t'', b, whole)
  {
    var g, d, w := subs[k], |t'| + 1, whole || !FirstAnd(subs, k);
    WholeAfter(subs, k, res, lits, t, t');
    SlackGrows(subs, k, t', t'', b);
    ChosenGrows(subs, k, t', t'', b, whole);
    hide Survives, Holds, WithDummy, OrShape, Slack, Chosen, Grown, Members;
    HoldsConcat(res, gs, b, whole);
    ConjunctionStep(subs, k, Read(t'', b), whole);
    ClauseOneMore(lits, d, b);
    MembersSurvive(g, Read(t'', b), w);
    assert OrHolds(subs, k, lits, t', b, whole) && Means(g.subs, |g.subs|, gs, d, WithDummy(t'), t'', w);
    assert Members(g.subs, |g.subs|, Read(t'', b), w, Value(b, d));
  }

  // The dummy takes the value of the conjunction.
  lemma ConjunctionReach(subs: seq<Formula>, k: nat, res: seq<IntClause>, lits: IntClause, gs: seq<IntClause>, t: Table, t': Table,
                         t'': Table, whole: bool, b: Bits)
    requires k < |subs| && OrShape(subs, k, res, lits, t, t') && OrMeans(subs, k, res, lits, t, t', whole) && subs[k].And?
    requires TableOk(t'') && Grown(t', t'') && Grown(WithDummy(t'), t'') && Numbered(subs[k], t'') && |WithDummy(t')| == |t'| + 1
    requires BothMean(subs[k].subs, gs, |t'| + 1, WithDummy(t'), t'') && Slack(subs, k + 1, Read(t'', b))
    ensures OrReach(subs, k + 1, res + gs, lits + [|t'| + 1], t, t'', b, whole)
  {
    hide Survives, WithDummy, TableOk, Members, Slack, Chosen, SameButDummies, Grown, FirstAnd, BothMean, Read, Holds, Numbered,
      NoAnds, ClauseTrue, Within, ClauseWithin;
    var w := whole || !FirstAnd(subs, k);
    SlackGrows(subs, k, t', t'', b);
    ChosenGrows(subs, k, t', t'', b, whole);
    ConjunctionStep(subs, k, Read(t'', b), whole);
    assert OrReach(subs, k, res, lits, t, t', b, whole);
    WholeAfter(subs, k, res, lits, t, t');
    TableSizes(t, t');
    var b1: Bits :| SameButDummies(b, b1, t', |t|) && Holds(res, b1, whole)
                    && (Chosen(subs, k, Read(t', b), whole) ==> ClauseTrue(lits, b1));
    var b3 := ConjunctionBits(subs[k], gs, t, t', t'', w, b, b1);
    HoldsKept(res, b1, b3, |t'|, whole);
    ClauseKept(lits, b1, b3, |t'|);
    HoldsConcat(res, gs, b3, whole);
    ClauseOneMore(lits, |t'| + 1, b3);
  }

  lemma ConjunctionBits(g: Formula, gs: seq<IntClause>, t: Table, t': Table, t'': Table, whole: bool, b: Bits, b1: Bits)
    returns (b3: Bits)
    requires g.And? && TableOk(t'') && Grown(t', t'') && Grown(WithDummy(t'), t'') && Numbered(g, t'') && |t| <= |t'|
    requires BothMean(g.subs, gs, |t'| + 1, WithDummy(t'), t'') && SameButDummies(b, b1, t', |t|)
    requires |WithDummy(t')| == |t'| + 1
    requires forall j :: 0 <= j < |g.subs| ==> Survives(g.subs[j], Read(t'', b), false)
    ensures SameButDummies(b, b3, t'', |t|) && Holds(gs, b3, whole) && b3(|t'| + 1) == Survives(g, Read(t'', b), whole)
    ensures forall i: int :: 1 <= i <= |t'| ==> b1(i) == b3(i)
  {
    hide Survives, Holds, TableOk, Members, Grown, WithDummy, Numbered, Read, SameButDummies, BothMean;
    var d, value := |t'| + 1, Survives(g, Read(t'', b), whole);
    var b2: Bits := (i: int) => if i == d then value else b1(i);
    SameWithDummy(b, b1, b2, t', t'', |t|);
    ConjunctionMembers(g, t'', b, b2, |t|, whole, d);
    MeansReach(g.subs, gs, d, WithDummy(t'), t'', b2, whole);
    b3 :| SameButDummies(b2, b3, t'', |WithDummy(t')|) && Holds(gs, b3, whole);
    SameTwice(b, b2, b3, t'', |t|, |WithDummy(t')|);
  }

  lemma MeansReach(subs: seq<Formula>, gs: seq<IntClause>, d: int, t: Table, t': Table, b: Bits, whole: bool)
    requires BothMean(subs, gs, d, t, t') && Members(subs, |subs|, Read(t', b), whole, Value(b, d))
    ensures Reach(gs, b, t', |t|, whole)
  {
    hide Members, Holds, Reach, Read;
  }

  lemma SameTwice(b: Bits, b1: Bits, b2: Bits, t: Table, n: int, n': int)
    requires SameButDummies(b, b1, t, n) && SameButDummies(b1, b2, t, n') && n <= n'
    ensures SameButDummies(b, b2, t, n) && forall i: int :: i <= n' ==> b1(i) == b2(i)
  {
  }

  lemma ConjunctionMembers(g: Formula, t: Table, b: Bits, b2: Bits, n: int, whole: bool, d: int)
    requires g.And? && TableOk(t) && Numbered(g, t) && SameButDummies(b, b2, t, n) && d > 0
    requires b2(d) == Survives(g, Read(t, b), whole)
    requires forall j :: 0 <= j < |g.subs| ==> Survives(g.subs[j], Read(t, b), false)
    ensures Members(g.subs, |g.subs|, Read(t, b2), whole, Value(b2, d))
  {
    SurvivesSame(g, t, b, b2, n, whole);
    forall j | 0 <= j < |g.subs| ensures Survives(g.subs[j], Read(t, b2), false) {
      SurvivesSame(g.subs[j], t, b, b2, n, false);
    }
    MembersSurvive(g, Read(t, b2), whole);
  }

  // Giving the next dummy a value as well.
  lemma SameWithDummy(b: Bits, b1: Bits, b2: Bits, t: Table, t': Table, n: int)
    requires SameButDummies(b, b1, t, n) && Grown(t, t') && Grown(WithDummy(t), t') && n <= |t|
    requires forall i: int :: i != |t| + 1 ==> b2(i) == b1(i)
    ensures SameButDummies(b, b2, t', n)
  {
    assert Dummy(|t| + 1) in WithDummy(t);
    assert Dummy(|t| + 1) in t';
  }

  lemma ConjunctionMeans(subs: seq<Formula>, k: nat, res: seq<IntClause>, lits: IntClause, gs: seq<IntClause>, t: Table, t': Table,
                         t'': Table, whole: bool)
    requires k < |subs| && OrShape(subs, k, res, lits, t, t') && OrMeans(subs, k, res, lits, t, t', whole) && subs[k].And?
    requires Shape(subs[k].subs, |subs[k].subs|, gs, WithDummy(t'), t'') && Grown(t', t'')
    requires BothMean(subs[k].subs, gs, |t'| + 1, WithDummy(t'), t'')
    ensures OrMeans(subs, k + 1, res + gs, lits + [|t'| + 1], t, t'', whole)
  {
    hide TableOk, Grown, WithDummy, Survives, Means, BothMean, OrMeans, OrHolds, OrReach, Within, ClauseWithin, Holds, Slack, Chosen,
      Read, NoAnds, ClauseTrue, SameButDummies;
    DummyTable(t');
    forall b: Bits | Holds(res + gs, b, whole) ensures OrHolds(subs, k + 1, lits + [|t'| + 1], t'', b, whole) {
      ConjunctionHolds(subs, k, res, lits, gs, t, t', t'', whole, b);
    }
    forall b: Bits | Slack(subs, k + 1, Read(t'', b)) ensures OrReach(subs, k + 1, res + gs, lits + [|t'| + 1], t, t'', b, whole) {
      ConjunctionReach(subs, k, res, lits, gs, t, t', t'', whole, b);
    }
    OrMeansIs(subs, k + 1, res + gs, lits + [|t'| + 1], t, t'', whole);
  }

  ghost predicate OrListed(subs: seq<Formula>, k: nat, res: seq<IntClause>, lits: IntClause, t: Table, t': Table)
  {
    OrShape(subs, k, res, lits, t, t')
    && OrMeans(subs, k, res, lits, t, t', true) && OrMeans(subs, k, res, lits, t, t', false)
  }

  // All members together: the clause of literals comes last, and is the first only if there is no other.
  lemma OrDone(f: Formula, res: seq<IntClause>, lits: IntClause, t: Table, t': Table)
    requires f.Or? && OrListed(f.subs, |f.subs|, res, lits, t, t')
    ensures Translates(f, res + [lits], t, t')
  {
    assert Within(res + [lits], |t'|);
    OrMeaning(f, res, lits, t, t', true);
    OrMeaning(f, res, lits, t, t', false);
    hide OrMeans, Meaning, OrShape, TableOk, Grown, Within;
    forall w: bool ensures Meaning(f, res + [lits], t, t', w) {
    }
  }

  lemma OneHolds(c: IntClause, b: Bits, whole: bool)
    ensures Holds([c], b, whole) <==> (whole ==> ClauseTrue(c, b))
  {
    assert [c][0] == c;
  }

  lemma OrMeaning(f: Formula, res: seq<IntClause>, lits: IntClause, t: Table, t': Table, whole: bool)
    requires f.Or? && OrShape(f.subs, |f.subs|, res, lits, t, t') && OrMeans(f.subs, |f.subs|, res, lits, t, t', whole)
    ensures Meaning(f, res + [lits], t, t', whole)
  {
    hide Holds, Shape, ClauseWithin, ClauseTrue, NoAnds;
    var n, cs := |f.subs|, res + [lits];
    forall b: Bits ensures Holds(cs, b, whole) <==> Holds(res, b, whole) && (whole || res != [] ==> ClauseTrue(lits, b)) {
      HoldsConcat(res, [lits], b, whole);
      OneHolds(lits, b, whole || res != []);
    }
    forall b: Bits ensures Survives(f, Read(t', b), whole)
                           <==> (!whole && res == []) || (Slack(f.subs, n, Read(t', b)) && Chosen(f.subs, n, Read(t', b), whole))
    {
      OrSurvives(f, Read(t', b), whole);
    }
    hide Survives, Slack, Chosen;
    forall b: Bits | Holds(cs, b, whole) ensures Survives(f, Read(t', b), whole) {
      assert OrHolds(f.subs, n, lits, t', b, whole);
    }
    forall b: Bits | Survives(f, Read(t', b), whole) ensures Reach(cs, b, t', |t|, whole) {
      if whole || res != [] {
        assert OrReach(f.subs, n, res, lits, t, t', b, whole);
      } else {
        NothingHolds(b, t', |t|);
      }
    }
  }

  lemma OrSurvives(f: Formula, m: Valuation, whole: bool)
    requires f.Or?
    ensures Survives(f, m, whole)
            <==> (!whole && NoAnds(f.subs, |f.subs|)) || (Slack(f.subs, |f.subs|, m) && Chosen(f.subs, |f.subs|, m, whole))
  {
  }

  lemma NothingHolds(b: Bits, t: Table, n: int)
    ensures SameButDummies(b, b, t, n) && Holds([], b, false)
  {
  }

  // ----- the whole translation -----

  lemma LiteralTranslates(v: Name, signed: bool, t: Table)
    requires TableOk(t)
    ensures Translates(Literal(v, signed), [[Signed(v, signed, WithName(t, v))]], t, WithName(t, v))
  {
    NamedTable(t, v);
    hide WithName;
    var t' := WithName(t, v);
    var x := Signed(v, signed, t');
    forall w: bool ensures Meaning(Literal(v, signed), [[x]], t, t', w) {
      forall b: Bits ensures Holds([[x]], b, w) <==> Survives(Literal(v, signed), Read(t', b), w) {
        OneHolds([x], b, w);
        LiteralSurvives(v, signed, t', b);
        assert ClauseTrue([x], b) <==> LitTrue(x, b) by {
          assert x in [x] && forall y :: y in [x] ==> y == x;
        }
      }
      forall b: Bits | Survives(Literal(v, signed), Read(t', b), w) ensures Reach([[x]], b, t', |t|, w) {
        assert SameButDummies(b, b, t', |t|);
      }
    }
    hide Meaning, Grown, TableOk;
    assert Within([[x]], |t'|);
  }

  lemma ConstantTranslates(f: Formula, cs: seq<IntClause>, t: Table)
    requires TableOk(t) && ((f.Top? && cs == []) || (f.Bottom? && cs == [[]]))
    ensures Translates(f, cs, t, t)
  {
    hide TableOk;
    forall w: bool ensures Meaning(f, cs, t, t, w) {
      var none: IntClause := [];
      forall b: Bits ensures Holds(cs, b, w) <==> Survives(f, Read(t, b), w) {
        OneHolds(none, b, w);
        assert !ClauseTrue(none, b);
      }
      forall b: Bits | Survives(f, Read(t, b), w) ensures Reach(cs, b, t, |t|, w) {
        assert SameButDummies(b, b, t, |t|);
      }
    }
  }

  // The clauses of a formula in normal form have exactly the models that survive, and so have the clauses after the first.
  lemma {:induction false} Translation(f: Formula, t: Table)
    requires TableOk(t) && Normal(f)
    ensures Translates(f, CnfOf(f, t).0, t, CnfOf(f, t).1)
    decreases f, 1, 0
  {
    match f
    case Literal(v, signed) => LiteralTranslates(v, signed, t);
    case And(subs) =>
      AndTranslation(f, |subs|, t);
      AndDone(f, AndOf(f, |subs|, t).0, t, AndOf(f, |subs|, t).1);
    case Or(subs) =>
      OrTranslation(f, |subs|, t);
      OrDone(f, OrOf(f, |subs|, t).0, OrOf(f, |subs|, t).1, t, OrOf(f, |subs|, t).2);
    case Top => ConstantTranslates(f, [], t);
    case Bottom => ConstantTranslates(f, [[]], t);
  }

  lemma AndDone(f: Formula, cs: seq<IntClause>, t: Table, t': Table)
    requires f.And? && Listed(f.subs, |f.subs|, cs, 0, t, t')
    ensures Translates(f, cs, t, t')
  {
    hide TableOk, Grown, Within, Holds, Read;
    forall w: bool ensures Meaning(f, cs, t, t', w) {
      assert Means(f.subs, |f.subs|, cs, 0, t, t', w);
      forall b: Bits ensures Members(f.subs, |f.subs|, Read(t', b), w, Value(b, 0)) <==> Survives(f, Read(t', b), w) {
        MembersSurvive(f, Read(t', b), w);
      }
      hide Survives, Members;
    }
  }

  lemma AndNext(f: Formula, k: nat, t: Table)
    requires f.And? && 0 < k <= |f.subs|
    ensures var cs, t1 := AndOf(f, k - 1, t).0, AndOf(f, k - 1, t).1;
            AndOf(f, k, t) == (cs + CnfOf(f.subs[k - 1], t1).0, CnfOf(f.subs[k - 1], t1).1)
  {
    hide CnfOf;
  }

  lemma GuardNext(g: Formula, j: nat, d: int, t: Table)
    requires g.And? && 0 < j <= |g.subs|
    ensures var gs, t1 := GuardOf(g, j - 1, d, t).0, GuardOf(g, j - 1, d, t).1;
            GuardOf(g, j, d, t) == (gs + Guarded(CnfOf(g.subs[j - 1], t1).0, d), CnfOf(g.subs[j - 1], t1).1)
  {
    hide CnfOf;
  }

  // The first k members of a conjunction, not guarded, as far as the induction goes.
  ghost predicate Listed(subs: seq<Formula>, k: nat, cs: seq<IntClause>, d: int, t: Table, t': Table)
  {
    Shape(subs, k, cs, t, t') && (cs != [] <==> k > 0)
    && Means(subs, k, cs, d, t, t', true) && Means(subs, k, cs, d, t, t', false)
  }

  lemma ListedNone(subs: seq<Formula>, d: int, t: Table)
    requires TableOk(t)
    ensures Listed(subs, 0, [], d, t, t)
  {
    NoMembers(subs, d, t, true);
    NoMembers(subs, d, t, false);
  }

  lemma ListedTable(subs: seq<Formula>, k: nat, cs: seq<IntClause>, d: int, t: Table, t': Table)
    requires Listed(subs, k, cs, d, t, t')
    ensures TableOk(t') && Grown(t, t')
  {
  }

  lemma ListedMore(subs: seq<Formula>, k: nat, cs: seq<IntClause>, ds: seq<IntClause>, d: int, t: Table, t': Table, t'': Table)
    requires k < |subs| && Listed(subs, k, cs, d, t, t') && Translates(subs[k], ds, t', t'') && ds != [] && 0 <= d <= |t|
    ensures Listed(subs, k + 1, cs + GuardedBy(ds, d), d, t, t'')
  {
    hide TableOk, Grown, Within, Means, Translates, Shape;
    ShapeMore(subs, k, cs, ds, d, t, t', t'');
    MeansMore(subs, k, cs, ds, d, t, t', t'', true);
    MeansMore(subs, k, cs, ds, d, t, t', t'', false);
  }

  lemma ListedAll(subs: seq<Formula>, cs: seq<IntClause>, d: int, t: Table, t': Table)
    requires Listed(subs, |subs|, cs, d, t, t')
    ensures Shape(subs, |subs|, cs, t, t') && BothMean(subs, cs, d, t, t') && (subs != [] ==> cs != [])
  {
  }

  lemma {:induction false} AndTranslation(f: Formula, k: nat, t: Table)
    requires TableOk(t) && Core(f) && f.And? && k <= |f.subs|
    ensures Listed(f.subs, k, AndOf(f, k, t).0, 0, t, AndOf(f, k, t).1)
    decreases f, 0, k
  {
    hide Listed, Translates, TableOk;
    if k == 0 {
      ListedNone(f.subs, 0, t);
    } else {
      AndTranslation(f, k - 1, t);
      var cs, t1 := AndOf(f, k - 1, t).0, AndOf(f, k - 1, t).1;
      ListedTable(f.subs, k - 1, cs, 0, t, t1);
      Translation(f.subs[k - 1], t1);
      HasClauses(f.subs[k - 1], t1);
      AndNext(f, k, t);
      hide AndOf, CnfOf, Core;
      ListedMore(f.subs, k - 1, cs, CnfOf(f.subs[k - 1], t1).0, 0, t, t1, CnfOf(f.subs[k - 1], t1).1);
    }
  }

  lemma {:induction false} GuardTranslation(g: Formula, j: nat, d: int, t: Table)
    requires TableOk(t) && Core(g) && g.And? && j <= |g.subs| && 1 <= d <= |t|
    ensures Listed(g.subs, j, GuardOf(g, j, d, t).0, d, t, GuardOf(g, j, d, t).1)
    decreases g, 0, j
  {
    hide Listed, Translates, TableOk;
    if j == 0 {
      ListedNone(g.subs, d, t);
    } else {
      GuardTranslation(g, j - 1, d, t);
      var gs, t1 := GuardOf(g, j - 1, d, t).0, GuardOf(g, j - 1, d, t).1;
      ListedTable(g.subs, j - 1, gs, d, t, t1);
      Translation(g.subs[j - 1], t1);
      HasClauses(g.subs[j - 1], t1);
      GuardNext(g, j, d, t);
      hide GuardOf, CnfOf, Core;
      ListedMore(g.subs, j - 1, gs, CnfOf(g.subs[j - 1], t1).0, d, t, t1, CnfOf(g.subs[j - 1], t1).1);
    }
  }

  lemma OrListedNone(subs: seq<Formula>, t: Table)
    requires TableOk(t)
    ensures OrListed(subs, 0, [], [], t, t)
  {
    NoDisjuncts(subs, t, true);
    NoDisjuncts(subs, t, false);
  }

  lemma OrListedTable(subs: seq<Formula>, k: nat, res: seq<IntClause>, lits: IntClause, t: Table, t': Table)
    requires OrListed(subs, k, res, lits, t, t')
    ensures TableOk(t')
  {
  }

  lemma OrListedLiteral(subs: seq<Formula>, k: nat, res: seq<IntClause>, lits: IntClause, t: Table, t': Table)
    requires k < |subs| && OrListed(subs, k, res, lits, t, t') && subs[k].Literal?
    ensures var t'' := WithName(t', subs[k].v);
            && Named(subs[k].v) in t''
            && OrListed(subs, k + 1, res, lits + [Signed(subs[k].v, subs[k].signed, t'')], t, t'')
  {
    hide OrShape, OrMeans, WithName, Signed;
    LiteralShape(subs, k, res, lits, t, t');
    LiteralMeans(subs, k, res, lits, t, t', true);
    LiteralMeans(subs, k, res, lits, t, t', false);
  }

  lemma OrListedAnd(subs: seq<Formula>, k: nat, res: seq<IntClause>, lits: IntClause, gs: seq<IntClause>, t: Table, t': Table,
                    t'': Table)
    requires k < |subs| && OrListed(subs, k, res, lits, t, t') && subs[k].And? && subs[k].subs != []
    requires Listed(subs[k].subs, |subs[k].subs|, gs, |t'| + 1, WithDummy(t'), t'')
    ensures OrListed(subs, k + 1, res + gs, lits + [|t'| + 1], t, t'')
  {
    ListedAll(subs[k].subs, gs, |t'| + 1, WithDummy(t'), t'');
    hide OrShape, OrMeans, WithDummy, Listed, BothMean, Shape;
    ConjunctionShape(subs, k, res, lits, gs, t, t', t'');
    ConjunctionMeans(subs, k, res, lits, gs, t, t', t'', true);
    ConjunctionMeans(subs, k, res, lits, gs, t, t', t'', false);
  }

  lemma OrNext(f: Formula, k: nat, t: Table)
    requires f.Or? && 0 < k <= |f.subs|
    ensures var res, lits, t1, g := OrOf(f, k - 1, t).0, OrOf(f, k - 1, t).1, OrOf(f, k - 1, t).2, f.subs[k - 1];
            && (g.Literal? ==> OrOf(f, k, t) == (res, lits + [Signed(g.v, g.signed, WithName(t1, g.v))], WithName(t1, g.v)))
            && (g.And? ==> var (gs, t2) := GuardOf(g, |g.subs|, |t1| + 1, WithDummy(t1));
                           OrOf(f, k, t) == (res + gs, lits + [|t1| + 1], t2))
  {
    hide GuardOf;
  }

  lemma {:induction false} OrTranslation(f: Formula, k: nat, t: Table)
    requires TableOk(t) && Core(f) && f.Or? && k <= |f.subs|
    ensures OrListed(f.subs, k, OrOf(f, k, t).0, OrOf(f, k, t).1, t, OrOf(f, k, t).2)
    decreases f, 0, k
  {
    hide TableOk, WithDummy, WithName, Signed, OrListed, Listed;
    if k == 0 {
      OrListedNone(f.subs, t);
    } else {
      OrTranslation(f, k - 1, t);
      var res, lits, t1 := OrOf(f, k - 1, t).0, OrOf(f, k - 1, t).1, OrOf(f, k - 1, t).2;
      OrListedTable(f.subs, k - 1, res, lits, t, t1);
      OrNext(f, k, t);
      var g := f.subs[k - 1];
      assert Core(g) && !g.Or?;
      if g.Literal? {
        hide OrOf;
        OrListedLiteral(f.subs, k - 1, res, lits, t, t1);
      } else {
        DummyTable(t1);
        GuardTranslation(g, |g.subs|, |t1| + 1, WithDummy(t1));
        hide OrOf, GuardOf;
        OrListedAnd(f.subs, k - 1, res, lits, GuardOf(g, |g.subs|, |t1| + 1, WithDummy(t1)).0, t, t1,
                    GuardOf(g, |g.subs|, |t1| + 1, WithDummy(t1)).1);
      }
    }
  }

  // ----- the models found -----

  // b gives the numbered variables of the formula the values of m.
  ghost predicate Reads(t: Table, b: Bits, m: Valuation) { forall v :: Named(v) in t ==> b(t[Named(v)]) == m(v) }

  ghost function BitsOf(t: Table, m: Valuation): Bits { i => exists v :: Named(v) in t && t[Named(v)] == i && m(v) }

  lemma BitsRead(t: Table, m: Valuation)
    requires TableOk(t)
    ensures Reads(t, BitsOf(t, m), m)
  {
    forall v | Named(v) in t ensures BitsOf(t, m)(t[Named(v)]) == m(v) {
      assert forall u :: Named(u) in t && t[Named(u)] == t[Named(v)] ==> Named(u) == Named(v);
    }
  }

  // The clauses of f have a model that gives the variables of f the values of m.
  ghost predicate Found(f: Formula, m: Valuation)
  {
    var (cs, t) := CnfOf(f, map[]);
    exists b: Bits :: AllClauses(cs, b) && Reads(t, b, m)
  }

  lemma FoundSurvives(f: Formula, m: Valuation)
    requires Normal(f) && Found(f, m)
    ensures Survives(f, m, true)
  {
    hide CnfOf, Survives;
    Translation(f, map[]);
    var cs, t := CnfOf(f, map[]).0, CnfOf(f, map[]).1;
    assert Meaning(f, cs, map[], t, true);
    var b: Bits :| AllClauses(cs, b) && Reads(t, b, m);
    HoldsAll(cs, b);
    SurvivesAgrees(f, Read(t, b), m, t, true);
  }

  lemma SurvivesFound(f: Formula, m: Valuation)
    requires Normal(f) && Survives(f, m, true)
    ensures Found(f, m)
  {
    hide CnfOf, Survives;
    Translation(f, map[]);
    var cs, t := CnfOf(f, map[]).0, CnfOf(f, map[]).1;
    hide Holds, AllClauses, TableOk, Grown, Within, Numbered;
    var b := BitsOf(t, m);
    BitsRead(t, m);
    SurvivesAgrees(f, Read(t, b), m, t, true);
    MeaningReach(f, cs, map[], t, b, true);
    var b': Bits :| SameButDummies(b, b', t, 0) && Holds(cs, b', true);
    HoldsAll(cs, b');
    forall v | Named(v) in t ensures b'(t[Named(v)]) == m(v) {
      NotDummy(t, v);
    }
  }

  // Exactly the surviving models are found.
  lemma ModelsExact(f: Formula, m: Valuation)
    requires Normal(f)
    ensures Found(f, m) <==> Survives(f, m, true)
  {
    hide Found, Survives;
    if Found(f, m) {
      FoundSurvives(f, m);
    }
    if Survives(f, m, true) {
      SurvivesFound(f, m);
    }
  }

  // What survives is a model.
  lemma {:induction false} SurvivorsHold(f: Formula, m: Valuation)
    requires Normal(f) && Survives(f, m, true)
    ensures Eval(f, m)
    decreases f
  {
    if f.And? {
      forall i | 0 <= i < |f.subs| ensures Eval(f.subs[i], m) {
        SurvivorsHold(f.subs[i], m);
      }
    } else if f.Or? {
      var i :| 0 <= i < |f.subs| && Survives(f.subs[i], m, true);
      SurvivorsHold(f.subs[i], m);
    }
  }

  // ----- the fragment on which nothing is lost -----

  // A literal, or a disjunction of literals.
  predicate Flat(f: Formula)
  {
    f.Literal? || (f.Or? && forall i :: 0 <= i < |f.subs| ==> f.subs[i].Literal?)
  }

  // Each conjunction below a disjunction holds only literals and disjunctions of literals.
  predicate InFragment(f: Formula)
  {
    match f
    case And(subs) => forall i :: 0 <= i < |subs| ==> InFragment(subs[i])
    case Or(subs) => forall i :: 0 <= i < |subs| ==>
      (subs[i].And? ==> forall j :: 0 <= j < |subs[i].subs| ==> Flat(subs[i].subs[j]))
    case _ => true
  }

  // A flat formula loses nothing, and without its first clause asks nothing.
  lemma FlatSurvives(f: Formula, m: Valuation)
    requires Flat(f)
    ensures Survives(f, m, true) <==> Eval(f, m)
    ensures Survives(f, m, false)
  {
    if f.Or? && Eval(f, m) {
      var i :| 0 <= i < |f.subs| && Eval(f.subs[i], m);
      assert Survives(f.subs[i], m, true);
    }
    if f.Or? && Survives(f, m, true) {
      var i :| 0 <= i < |f.subs| && Survives(f.subs[i], m, true);
      assert Eval(f.subs[i], m);
    }
  }

  lemma {:induction false} FragmentSurvives(f: Formula, m: Valuation)
    requires Normal(f) && InFragment(f) && Eval(f, m)
    ensures Survives(f, m, true)
    decreases f
  {
    if f.And? {
      forall i | 0 <= i < |f.subs| ensures Survives(f.subs[i], m, true) {
        FragmentSurvives(f.subs[i], m);
      }
    } else if f.Or? {
      forall i, j | 0 <= i < |f.subs| && f.subs[i].And? && 0 <= j < |f.subs[i].subs|
        ensures Survives(f.subs[i].subs[j], m, false) && (Survives(f.subs[i].subs[j], m, true) <==> Eval(f.subs[i].subs[j], m))
      {
        FlatSurvives(f.subs[i].subs[j], m);
      }
      var i :| 0 <= i < |f.subs| && Eval(f.subs[i], m);
      assert Core(f.subs[i]);
      assert Survives(f.subs[i], m, true);
    }
  }

  // Outside it, a model survives at least if every disjunction of the formula holds in it.
  predicate OrsHold(f: Formula, m: Valuation)
  {
    match f
    case And(subs) => forall i :: 0 <= i < |subs| ==> OrsHold(subs[i], m)
    case Or(subs) => Eval(f, m) && forall i :: 0 <= i < |subs| ==> OrsHold(subs[i], m)
    case _ => true
  }

  lemma {:induction false} OrsSurvive(f: Formula, m: Valuation)
    requires Core(f) && OrsHold(f, m)
    ensures (!f.And? ==> Survives(f, m, false)) && (Eval(f, m) ==> Survives(f, m, true))
    decreases f
  {
    if f.And? {
      forall i | 0 <= i < |f.subs| ensures Eval(f.subs[i], m) ==> Survives(f.subs[i], m, true) {
        OrsSurvive(f.subs[i], m);
      }
    } else if f.Or? {
      forall i | 0 <= i < |f.subs| ensures Eval(f.subs[i], m) ==> Survives(f.subs[i], m, true) {
        OrsSurvive(f.subs[i], m);
      }
      forall i, j | 0 <= i < |f.subs| && f.subs[i].And? && 0 <= j < |f.subs[i].subs|
        ensures Survives(f.subs[i].subs[j], m, false)
      {
        assert OrsHold(f.subs[i], m) && Core(f.subs[i]);
        OrsSurvive(f.subs[i].subs[j], m);
      }
      var i :| 0 <= i < |f.subs| && Eval(f.subs[i], m);
      assert Survives(f.subs[i], m, true) && Survives(f.subs[i], m, !FirstAnd(f.subs, i));
    }
  }

  // ----- the whole way from a formula -----

  // asCnf: normalises the formula and translates it. The models found are the surviving ones of the normal form; they
  // are models of the formula, and in the fragment all of them, if no connective runs out of members.
  method AsCnf(f: Formula) returns (cs: seq<IntClause>, vars: Vars)
    ensures fresh(vars) && vars.Valid() && (cs, vars.all) == CnfOf(Nnf(f), map[])
    ensures forall m: Valuation :: (exists b: Bits :: AllClauses(cs, b) && Reads(vars.all, b, m)) <==> Survives(Nnf(f), m, true)
    ensures Safe(f) ==> forall m: Valuation :: Survives(Nnf(f), m, true) ==> Eval(f, m)
    ensures Safe(f) && InFragment(Nnf(f)) ==> forall m: Valuation :: Survives(Nnf(f), m, true) <==> Eval(f, m)
  {
    hide Eval, Safe, TableOk, Nnf, CnfOf, InFragment, Survives;
    vars := new Vars();
    cs := CnfRec(Nnf(f), vars);
    forall m: Valuation
      ensures (exists b: Bits :: AllClauses(cs, b) && Reads(vars.all, b, m)) <==> Survives(Nnf(f), m, true)
      ensures Safe(f) && Survives(Nnf(f), m, true) ==> Eval(f, m)
      ensures Safe(f) && InFragment(Nnf(f)) && Eval(f, m) ==> Survives(Nnf(f), m, true)
    {
      ModelsExact(Nnf(f), m);
      if Safe(f) {
        NnfPreserves(f, m);
        if Survives(Nnf(f), m, true) {
          SurvivorsHold(Nnf(f), m);
        }
        if InFragment(Nnf(f)) && Eval(f, m) {
          FragmentSurvives(Nnf(f), m);
        }
      }
    }
  }
}
