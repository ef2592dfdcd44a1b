// Concrete runs of cuttingPlanes (solver/learn_pb.go) in which the loop goes wrong: it reports a satisfiable
// database as unsatisfiable, indexes the trail at -1, or never ends.
module WrongVerdict {
  import opened Logic
  import opened Bindings
  import opened Linear
  import opened CuttingPlanes
  import opened Resolution

  function Atom(v: nat, pos: bool): Term { Term(Lit(v, pos), 1) }

  // At least two of a, b, c.
  function Two(): Constr { Constr([Atom(0, true), Atom(1, true), Atom(2, true)], 2) }

  // At least two of -a, -b, -c, or of these and -d.
  function TwoNot(): Constr { Constr([Atom(0, false), Atom(1, false), Atom(2, false)], 2) }

  function TwoNotD(): Constr { Constr([Atom(0, false), Atom(1, false), Atom(2, false), Atom(3, false)], 2) }

  // ----- weights -----

  lemma DenseStep(ts: seq<Term>, t: Term, n: nat, us: seq<Term>)
    requires us == ts + [t] && (forall u :: u in ts ==> u.l.v < n) && t.l.v < n
    ensures Dense(us, n) == Dense(ts, n)[t.l.v := Signed(t)]
  {
    assert us[..|ts|] == ts;
  }

  // A constraint over the variables 0, 1, ..., n - 1, all with the same sign.
  lemma {:induction false} DenseRun(ts: seq<Term>, n: nat, pos: bool, k: nat)
    requires k <= |ts| <= n && forall i :: 0 <= i < |ts| ==> ts[i] == Atom(i, pos)
    ensures forall t :: t in ts[..k] ==> t.l.v < n
    ensures Dense(ts[..k], n) == seq(n, v => if v >= k then 0 else if pos then 1 else -1)
  {
    if k > 0 {
      DenseRun(ts, n, pos, k - 1);
      DenseStep(ts[..k - 1], ts[k - 1], n, ts[..k]);
    }
  }

  lemma Weighed()
    ensures ConstrOk(Two(), 4) && ConstrOk(TwoNot(), 4) && ConstrOk(TwoNotD(), 4)
    ensures Dense(Two().terms, 4) == [1, 1, 1, 0]
    ensures Dense(TwoNot().terms, 4) == [-1, -1, -1, 0] && Dense(TwoNotD().terms, 4) == [-1, -1, -1, -1]
  {
    DenseRun(Two().terms, 4, true, 3);
    DenseRun(TwoNot().terms, 4, false, 3);
    DenseRun(TwoNotD().terms, 4, false, 4);
    assert Two().terms[..3] == Two().terms && TwoNot().terms[..3] == TwoNot().terms && TwoNotD().terms[..4] == TwoNotD().terms;
  }

  lemma Sum3(ts: seq<Term>, f: Term -> int)
    requires |ts| == 3
    ensures Sum(ts, f) == f(ts[0]) + f(ts[1]) + f(ts[2])
  {
    Taken(ts, 0, f);
    Taken(ts, 1, f);
    Taken(ts, 2, f);
    assert ts[..3] == ts;
  }

  lemma Sum4(ts: seq<Term>, f: Term -> int)
    requires |ts| == 4
    ensures Sum(ts, f) == f(ts[0]) + f(ts[1]) + f(ts[2]) + f(ts[3])
  {
    Sum3(ts[..3], f);
    Taken(ts, 3, f);
    assert ts[..4] == ts;
  }

  // ----- the trail of the conflict -----

  // -a is decided at level lvl on top of x, and forces b and c.
  function Trailed(x: Context, lvl: nat): Context
    requires |x.model| == |x.reason| == 4
  {
    var m: Model := [SignedLevel(Lit(0, false), lvl), lvl, lvl, x.model[3]];
    Context(x.trail + [Lit(0, false), Lit(1, true), Lit(2, true)], m, [None, Some(Two()), Some(Two()), x.reason[3]])
  }

  // Nothing else is bound, or d is: a fact at level 1, a decision at level 2.
  function NoD(): Context { Context([], [0, 0, 0, 0], [None, None, None, None]) }

  function WithD(lvl: nat): Context
  {
    var m: Model := [0, 0, 0, lvl];
    Context([Lit(3, true)], m, [None, None, None, None])
  }

  // What one more literal leaves to be known for the next.
  ghost predicate Topped(x: Context, lvl: nat)
  {
    WellBound(x) && |x.model| == |x.reason| == 4 && LevelsUpTo(x.model, x.trail, lvl) && TopLevel(x) == lvl
  }

  lemma Extend(x: Context, l: Lit, lvl: nat, r: Option<Constr>)
    requires WellBound(x) && |x.model| == |x.reason| == 4 && Extendable(x, l, lvl, r)
    ensures Topped(Extended(x, l, lvl, r), lvl)
  {
    ExtendWell(x, l, lvl, r);
    PushTrail(x.model, x.trail, l, lvl);
    hide WellBound, TrailOk, Extendable, LevelsUpTo;
  }

  lemma ForcedNext(x: Context, v: nat, lvl: nat)
    requires Topped(x, lvl) && 1 <= v <= 2 && x.model[0] < 0 && x.model[1] >= 0 && x.model[2] >= 0 && x.model[v] == 0 && lvl >= 2
    ensures Topped(Extended(x, Lit(v, true), lvl, Some(Two())), lvl)
  {
    hide WellBound, LevelsUpTo;
    Weighed();
    Sum3(Two().terms, NotFalse(x.model));
    hide Sum, Dense, ConstrOk;
    assert Two().terms[v].l == Lit(v, true);
    Extend(x, Lit(v, true), lvl, Some(Two()));
  }

  lemma TrailedWell(x: Context, lvl: nat)
    requires lvl >= 2 && Topped(x, lvl - 1) && x.model[..3] == [0, 0, 0] && x.reason[..3] == [None, None, None]
    ensures WellBound(Trailed(x, lvl))
  {
    var a, b, c := Lit(0, false), Lit(1, true), Lit(2, true);
    assert x.model[0] == x.model[..3][0] && x.model[1] == x.model[..3][1] && x.model[2] == x.model[..3][2];
    hide WellBound, Trailed, TopLevel;
    Extend(x, a, lvl, None);
    var x1 := Extended(x, a, lvl, None);
    hide LevelsUpTo;
    ForcedNext(x1, 1, lvl);
    var x2 := Extended(x1, b, lvl, Some(Two()));
    ForcedNext(x2, 2, lvl);
    ThreeMore(x, lvl);
  }

  lemma ThreeMore(x: Context, lvl: nat)
    requires |x.model| == |x.reason| == 4 && x.reason[..3] == [None, None, None]
    ensures var x1 := Extended(x, Lit(0, false), lvl, None);
            var x2 := Extended(x1, Lit(1, true), lvl, Some(Two()));
            Extended(x2, Lit(2, true), lvl, Some(Two())) == Trailed(x, lvl)
  {
    hide Two;
    var y := Extended(Extended(Extended(x, Lit(0, false), lvl, None), Lit(1, true), lvl, Some(Two())), Lit(2, true), lvl, Some(Two()));
    assert y.trail == Trailed(x, lvl).trail;
    assert y.model == Trailed(x, lvl).model;
    assert y.reason == Trailed(x, lvl).reason;
  }

  lemma NoDTopped()
    ensures Topped(NoD(), 1)
  {
  }

  lemma WithDTopped(lvl: nat)
    requires 1 <= lvl <= 2
    ensures Topped(WithD(lvl), lvl)
  {
    NoDTopped();
    hide WellBound;
    Extend(NoD(), Lit(3, true), lvl, None);
    var y := Extended(NoD(), Lit(3, true), lvl, None);
    assert y.trail == [Lit(3, true)] && y.model == [0, 0, 0, lvl] && y.reason == [None, None, None, None];
  }

  // In all three runs the conflict meets every condition of the analysis.
  ghost predicate Starts(x: Context, confl: Constr, lvl: nat, db: seq<Constr>, units: set<Lit>, s: State)
  {
    WellBound(x) && FromDb(x, db, units) && confl in db && ConstrOk(confl, |x.model|) && OpenSum(confl.terms, x.model) < confl.card
    && s == State(Dense(confl.terms, |x.model|), confl.card, |x.trail| - 1, lvl)
    && Falsifying(x, s, db, units) && Synced(x, s)
  }

  lemma Started(x0: Context, confl: Constr, lvl: nat, units: set<Lit>)
    requires |x0.model| == |x0.reason| == 4 && x0.reason == [None, None, None, None] && lvl >= 2
    requires WellBound(Trailed(x0, lvl)) && ConstrOk(confl, 4) && OpenSum(confl.terms, Trailed(x0, lvl).model) < confl.card
    requires forall i :: 0 <= i < |x0.trail| ==> x0.trail[i].v == 3 && (x0.model[3] == 1 ==> x0.trail[i] in units)
    requires x0.model[3] >= 0
    ensures Starts(Trailed(x0, lvl), confl, lvl, [confl, Two()], units, State(Dense(confl.terms, 4), confl.card, |x0.trail| + 2, lvl))
  {
    var x, db := Trailed(x0, lvl), [confl, Two()];
    assert confl == db[0] && Two() == db[1];
    assert confl in db && Two() in db;
    TrailedAt(x0, lvl);
    TrailedFrom(x0, lvl, units, db);
    hide WellBound, ConstrOk, Sum, Dense, Falsifying, InSync, Synced, Two, FromDb, Trailed;
    Start(x, confl, lvl, db, units);
  }

  lemma TrailedFrom(x0: Context, lvl: nat, units: set<Lit>, db: seq<Constr>)
    requires |x0.model| == |x0.reason| == 4 && x0.reason == [None, None, None, None] && lvl >= 2 && Two() in db
    requires forall i :: 0 <= i < |x0.trail| ==> x0.trail[i].v == 3 && (x0.model[3] == 1 ==> x0.trail[i] in units)
    requires x0.model[3] >= 0
    ensures FromDb(Trailed(x0, lvl), db, units)
  {
    var x, n := Trailed(x0, lvl), |x0.trail|;
    hide Two;
    forall i | 0 <= i < |x.trail| && x.trail[i].v < 4
      ensures match x.reason[x.trail[i].v]
              case Some(c) => c in db
              case None => LevelAt(x, i) == 1 ==> x.trail[i] in units
    {
      if i < n {
        assert x.trail[i] == x0.trail[i];
      }
    }
  }

  // b and c are both falsified, so the first turn resolves with the reason of c, which cancels a, b and c.
  lemma FirstTurn(x0: Context, lvl: nat, w: int)
    requires |x0.model| == |x0.reason| == 4 && WellBound(Trailed(x0, lvl)) && -1 <= w <= 0 && lvl >= 2
    ensures var x, s := Trailed(x0, lvl), State([-1, -1, -1, w], 2, |x0.trail| + 2, lvl);
            && ConstrOk(Two(), 4) && Dense(Two().terms, 4)[2] != 0
            && var s1 := Resolve(x, s, Two());
               && s1.ws == [0, 0, 0, w] && s1.ptr == s.ptr && s1.lvl == lvl
               && Run(x, s) == Run(x, s1) && MeetsDecision(x, s) == MeetsDecision(x, s1)
  {
    var x, s := Trailed(x0, lvl), State([-1, -1, -1, w], 2, |x0.trail| + 2, lvl);
    TrailedAt(x0, lvl);
    hide WellBound, ConstrOk, Trailed, LevelAt;
    Weighed();
    TwoHits(x, s);
    CancelTwo(x, s);
    hide Resolve, Dense;
  }

  // Two falsified literals of the level are not one.
  lemma TwoHits(x: Context, s: State)
    requires |x.reason| == |x.model| && forall i :: 0 <= i < |x.trail| ==> x.trail[i].v < |x.model|
    requires 1 <= s.ptr < |x.trail| && LevelAt(x, s.ptr) == LevelAt(x, s.ptr - 1) == s.lvl
    requires Falsifies(s.ws, x.trail[s.ptr]) && Falsifies(s.ws, x.trail[s.ptr - 1])
    ensures Scan(x, s.ws, s.ptr, s.lvl, None) == None && Skip(x, s) == s
  {
    assert Scan(x, s.ws, s.ptr - 1, s.lvl, Some(x.trail[s.ptr])) == None;
  }

  lemma CancelTwo(x: Context, s: State)
    requires 0 <= s.ptr < |x.trail| && x.trail[s.ptr] == Lit(2, true) && |x.model| == 4 && |s.ws| == 4
    requires s.ws[0] == s.ws[1] == s.ws[2] == -1
    ensures ConstrOk(Two(), 4) && Dense(Two().terms, 4)[2] != 0 && Resolve(x, s, Two()).ws == [0, 0, 0, s.ws[3]]
  {
    Weighed();
    hide Dense, ConstrOk, Restricted, RoundedCard, Cancelled;
    assert Resolve(x, s, Two()).ws == Added(s.ws, [1, 1, 1, 0]);
  }

  lemma TrailedAt(x0: Context, lvl: nat)
    requires |x0.model| == |x0.reason| == 4 && lvl >= 2
    ensures var x, n := Trailed(x0, lvl), |x0.trail|;
            && x.trail[n] == Lit(0, false) && x.trail[n + 1] == Lit(1, true) && x.trail[n + 2] == Lit(2, true)
            && LevelAt(x, n) == LevelAt(x, n + 1) == LevelAt(x, n + 2) == lvl
            && |x.trail| == n + 3 && |x.model| == |x.reason| == 4 && x.reason[2] == Some(Two())
  {
  }

  // ----- a satisfiable database reported as unsatisfiable -----

  function BadDb(): seq<Constr> { [TwoNotD(), Two()] }

  lemma BadModel(a: Assignment)
    requires forall v :: a(v) <==> v < 2
    ensures Allowed(BadDb(), {}, a)
  {
    assert a(0) && a(1) && !a(2) && !a(3);
    Sum4(TwoNotD().terms, TrueIn(a));
    Sum3(Two().terms, TrueIn(a));
    forall k | k in BadDb() ensures Met(k, a) {
      assert k == TwoNotD() || k == Two();
    }
  }

  // With d decided at level 2 and -a at level 3, the resolvent is -d >= 1. It falsifies nothing of level 3, so the
  // inner loop goes down to the decision d, has no reason to resolve with, and lowers the level from 2 to 1.
  lemma WrongVerdict()
    ensures var x, s := Trailed(WithD(2), 3), State([-1, -1, -1, -1], 2, 3, 3);
            Starts(x, TwoNotD(), 3, BadDb(), {}, s) && Run(x, s).AtTop? && MeetsDecision(x, s) && !Impossible(BadDb(), {})
  {
    WithDTopped(2);
    TrailedWell(WithD(2), 3);
    BadStarts(2, 3, {});
    BadRun();
    BadPossible();
    hide *;
  }

  lemma BadPossible()
    ensures !Impossible(BadDb(), {})
  {
    var a: Assignment := (v: nat) => v < 2;
    BadModel(a);
  }

  lemma BadRun()
    requires WellBound(Trailed(WithD(2), 3))
    ensures var x, s := Trailed(WithD(2), 3), State([-1, -1, -1, -1], 2, 3, 3); Run(x, s).AtTop? && MeetsDecision(x, s)
  {
    FirstTurn(WithD(2), 3, -1);
    var s1 := Resolve(Trailed(WithD(2), 3), State([-1, -1, -1, -1], 2, 3, 3), Two());
    BackToD(2, 3, s1);
    hide WellBound, Resolve, Scan, Skip, Run, MeetsDecision;
    DecisionEnds(Trailed(WithD(2), 3), s1);
  }

  // The resolvent -d >= 1 takes the loop down to d, past the decision -a.
  lemma BackToD(lvlD: nat, lvl: nat, s: State)
    requires 1 <= lvlD < lvl && WellBound(Trailed(WithD(lvlD), lvl)) && s.ws == [0, 0, 0, -1] && s.ptr == 3 && s.lvl == lvl
    ensures var x := Trailed(WithD(lvlD), lvl);
            && Scan(x, s.ws, 3, lvl, None) == None && |x.reason| == |x.model|
            && (forall i :: 0 <= i < |x.trail| ==> x.trail[i].v < |x.model|)
            && Skip(x, s) == s.(ptr := 0, lvl := lvl - 1)
  {
    var x := Trailed(WithD(lvlD), lvl);
    hide WellBound;
    assert Scan(x, s.ws, 1, lvl, None) == None;
    assert Scan(x, s.ws, 3, lvl, None) == None;
    assert Skip(x, s.(ptr := 1)) == s.(ptr := 0, lvl := lvl - 1);
  }

  lemma BadStarts(lvlD: nat, lvl: nat, units: set<Lit>)
    requires 1 <= lvlD < lvl && WellBound(Trailed(WithD(lvlD), lvl)) && (lvlD == 1 ==> Lit(3, true) in units)
    ensures Starts(Trailed(WithD(lvlD), lvl), TwoNotD(), lvl, BadDb(), units, State([-1, -1, -1, -1], 2, 3, lvl))
  {
    Weighed();
    Sum4(TwoNotD().terms, NotFalse(Trailed(WithD(lvlD), lvl).model));
    hide WellBound, ConstrOk, Sum, Dense, Starts;
    Started(WithD(lvlD), TwoNotD(), lvl, units);
  }

  // ----- the loop that never ends -----

  // As before, with d a fact: the database has no solution with d. The loop comes down to d at level 1, which has no
  // reason either, lowers the level to 0, and from then on only goes on lowering it.
  lemma NeverEnds()
    ensures var x, s := Trailed(WithD(1), 2), State([-1, -1, -1, -1], 2, 3, 2);
            Starts(x, TwoNotD(), 2, BadDb(), {Lit(3, true)}, s) && Run(x, s).Never? && Impossible(BadDb(), {Lit(3, true)})
  {
    WithDTopped(1);
    TrailedWell(WithD(1), 2);
    BadStarts(1, 2, {Lit(3, true)});
    NeverRun();
    hide *;
    EndsImpossible(Trailed(WithD(1), 2), TwoNotD(), 2, BadDb(), {Lit(3, true)}, State([-1, -1, -1, -1], 2, 3, 2));
  }

  lemma EndsImpossible(x: Context, confl: Constr, lvl: nat, db: seq<Constr>, units: set<Lit>, s: State)
    requires Starts(x, confl, lvl, db, units, s) && (Run(x, s).Never? || Run(x, s).OffTrail?)
    ensures Impossible(db, units)
  {
    RunSound(x, s, db, units);
  }

  lemma NeverRun()
    requires WellBound(Trailed(WithD(1), 2))
    ensures Run(Trailed(WithD(1), 2), State([-1, -1, -1, -1], 2, 3, 2)).Never?
  {
    FirstTurn(WithD(1), 2, -1);
    var s1 := Resolve(Trailed(WithD(1), 2), State([-1, -1, -1, -1], 2, 3, 2), Two());
    BackToD(1, 2, s1);
    hide WellBound, Resolve, Scan, Skip, Run, MeetsDecision;
    FactLoops(Trailed(WithD(1), 2), s1);
  }

  // ----- the loop that leaves the trail -----

  function CycleDb(): seq<Constr> { [TwoNot(), Two()] }

  // Without d the resolvent is empty and asks for 1. The inner loop finds nothing falsified and runs off the trail.
  lemma LeavesTrail()
    ensures var x, s := Trailed(NoD(), 2), State([-1, -1, -1, 0], 2, 2, 2);
            Starts(x, TwoNot(), 2, CycleDb(), {}, s) && Run(x, s).OffTrail? && Impossible(CycleDb(), {})
  {
    NoDTopped();
    TrailedWell(NoD(), 2);
    CycleStarts();
    CycleRun();
    hide *;
    EndsImpossible(Trailed(NoD(), 2), TwoNot(), 2, CycleDb(), {}, State([-1, -1, -1, 0], 2, 2, 2));
  }

  lemma CycleRun()
    requires WellBound(Trailed(NoD(), 2))
    ensures Run(Trailed(NoD(), 2), State([-1, -1, -1, 0], 2, 2, 2)).OffTrail?
  {
    FirstTurn(NoD(), 2, 0);
    var s1 := Resolve(Trailed(NoD(), 2), State([-1, -1, -1, 0], 2, 2, 2), Two());
    OffTheTrail(s1);
    hide WellBound, Resolve, Scan, Skip, Run, MeetsDecision;
    NothingLeft(Trailed(NoD(), 2), s1);
  }

  lemma OffTheTrail(s: State)
    requires s.ws == [0, 0, 0, 0] && s.ptr == 2 && s.lvl == 2
    ensures var x := Trailed(NoD(), 2);
            && Scan(x, s.ws, 2, 2, None) == None && |x.reason| == |x.model|
            && (forall i :: 0 <= i < |x.trail| ==> x.trail[i].v < |x.model|)
            && Skip(x, s).ptr < 0
  {
    var x := Trailed(NoD(), 2);
    assert Scan(x, s.ws, 0, 2, None) == None && Skip(x, s.(ptr := 0)).ptr == -1;
    assert Skip(x, s.(ptr := 1)).ptr == -1;
  }

  lemma CycleStarts()
    requires WellBound(Trailed(NoD(), 2))
    ensures Starts(Trailed(NoD(), 2), TwoNot(), 2, CycleDb(), {}, State([-1, -1, -1, 0], 2, 2, 2))
  {
    Weighed();
    Sum3(TwoNot().terms, NotFalse(Trailed(NoD(), 2).model));
    hide WellBound, ConstrOk, Sum, Dense, Starts;
    Started(NoD(), TwoNot(), 2, {});
  }
}
