// A run in which watching misses propagations, although it never misses a conflict: updateWatchPB
// (solver/watcher.go:567-597) watches just enough to exceed the degree.
module MissedPropagation {
  import opened Logic
  import opened Bindings
  import opened Linear
  import opened Resolution
  import opened PbClause
  import opened PbWatch
  import opened PbPropagation

  // 2a + 2b + c + d >= 3.
  function Sample(): Constr
  {
    Constr([Term(Lit(0, true), 2), Term(Lit(1, true), 2), Term(Lit(2, true), 1), Term(Lit(3, true), 1)], 3)
  }

  lemma Sum4(ts: seq<Term>, f: Term -> int)
    requires |ts| == 4
    ensures Sum(ts, f) == f(ts[0]) + f(ts[1]) + f(ts[2]) + f(ts[3])
    ensures Sum(ts[..0], f) == 0 && Sum(ts[..1], f) == f(ts[0]) && Sum(ts[..2], f) == f(ts[0]) + f(ts[1])
    ensures Sum(ts[..3], f) == f(ts[0]) + f(ts[1]) + f(ts[2])
  {
    Taken(ts, 0, f);
    Taken(ts, 1, f);
    Taken(ts, 2, f);
    Taken(ts, 3, f);
    assert ts[..4] == ts;
  }

  lemma SampleLoadable()
    ensures Loadable(Sample(), 4)
  {
    Sum4(Sample().terms, Weights());
    hide Sum;
    assert forall i :: 0 <= i < 4 ==> Sample().terms[i].w <= 2;
  }

  // watchPB watches a, b and c: their weights reach 3 + 2.
  lemma FirstWatches(ws: seq<bool>)
    requires WatchedUpTo(Sample(), ws)
    ensures ws == [true, true, true, false]
  {
    var k: nat :| GoalAt(Sample(), ws, k);
    Sum4(Sample().terms, Weights());
    hide Sum;
    assert k == 3;
  }

  // With c false the slack is 2, and no weight exceeds it.
  lemma FirstSlack(m: Model, ws: seq<bool>)
    requires m == [0, 0, -2, 0]
    ensures OpenSum(Sample().terms, m) == 5 && Sum(Sample().terms, TrueNow(m)) == 0
    ensures BarelyWatched(Sample(), ws, m) ==> ws == [true, true, false, false]
  {
    Sum4(Sample().terms, NotFalse(m));
    Sum4(Sample().terms, TrueNow(m));
    hide Sum;
    if BarelyWatched(Sample(), ws, m) {
      var stop: nat :| StopsAt(Sample(), ws, m, stop);
      assert stop == 2;
    }
  }

  // So nothing is propagated,
  lemma NothingAdded(m: Model, t: seq<Lit>, reason0: seq<Option<nat>>, reason: seq<Option<nat>>)
    requires Grew([0, 0, -2, 0], [Lit(2, false)], reason0, m, t, reason, 2) && Reasoned([Sample()], m, t, reason)
    ensures t == [Lit(2, false)] && |m| == 4 && m[2] == -2
  {
    assert m[2] == [0, 0, -2, 0][2];
    if |t| > 1 {
      NotForcedYet(m, t);
    }
  }

  lemma NotForcedYet(m: Model, t: seq<Lit>)
    requires |m| == 4 && |t| > 1 && t[0] == Lit(2, false) && m[2] == -2
    ensures !Propagated(Context(t, m, []), 1, Sample())
  {
    OneLiteral(m, t);
    FirstSlack([0, 0, -2, 0], []);
    hide Sum;
    assert forall k :: 0 <= k < 4 ==> Sample().terms[k].w <= 2;
  }

  // and the visit leaves a and b as the only watches.
  lemma FirstDecision(ws0: seq<bool>, ws: seq<bool>, m: Model, t: seq<Lit>)
    requires ws0 == [true, true, true, false] && Rewatched(Sample(), ws0, ws, m, m)
    requires m == [0, 0, -2, 0] && t == [Lit(2, false)] && CoveredUpTo(Sample(), ws, m, Elems(t))
    ensures ws == [true, true, false, false]
  {
    FirstSlack(m, ws);
    OldWatches(m, t);
    hide CoveredUpTo, BarelyWatched;
    assert forall n: Model :: Extends(m, n) && Extends(n, m) ==> n == m;
  }

  lemma OldWatches(m: Model, t: seq<Lit>)
    requires m == [0, 0, -2, 0] && t == [Lit(2, false)]
    ensures !CoveredUpTo(Sample(), [true, true, true, false], m, Elems(t))
  {
    var c, ws := Sample(), [true, true, true, false];
    FirstSlack(m, ws);
    hide Sum, WatchedSum;
    assert UpTo(m, 2) == m;
    assert ws[2] && False(m, c.terms[2].l) && c.terms[2].l.Neg() == t[0];
    assert !Covered(c, ws, UpTo(m, 2), Elems(t));
  }

  lemma OneLiteral(m: Model, t: seq<Lit>)
    requires |m| == 4 && |t| > 1 && t[0] == Lit(2, false) && m[2] == -2
    ensures Restricted(m, t, 1) == [0, 0, -2, 0]
  {
    assert t[..1] == [Lit(2, false)] && Vars(t[..1]) == {2};
  }

  lemma BoundByOne(m: Model, t: seq<Lit>)
    requires |m| == 4 && m[2] == -2 && TrailOk(m, t) && t == [Lit(2, false)]
    ensures m == [0, 0, -2, 0]
  {
    forall v | 0 <= v < 4 && v != 2 ensures m[v] == 0 {
      assert m[v] != 0 ==> True(m, Lit(v, m[v] > 0));
    }
  }

  lemma BoundByTwo(m: Model, t: seq<Lit>)
    requires |m| == 4 && m[2] == -2 && m[3] == -3 && TrailOk(m, t) && t == [Lit(2, false), Lit(3, false)]
    ensures m == [0, 0, -2, -3]
  {
    forall v | 0 <= v < 2 ensures m[v] == 0 {
      assert m[v] != 0 ==> True(m, Lit(v, m[v] > 0));
    }
  }

  lemma BothForced()
    ensures Forceable(Sample(), [0, 0, -2, -3], Lit(0, true)) && Forceable(Sample(), [0, 0, -2, -3], Lit(1, true))
  {
    var c, m: Model := Sample(), [0, 0, -2, -3];
    Sum4(c.terms, NotFalse(m));
    assert c.terms[0].l == Lit(0, true) && c.terms[1].l == Lit(1, true);
  }

  // Loads Sample, decides -c at level 2 and -d at level 3. Nothing is propagated, although both decisions
  // together force a and b.
  method MissedRun() returns (p: Propagator)
    ensures p.constraints == [Sample()] && p.trail == [Lit(2, false), Lit(3, false)] && p.model == [0, 0, -2, -3]
    ensures Forceable(Sample(), p.model, Lit(0, true)) && Forceable(Sample(), p.model, Lit(1, true))
  {
    hide CoveredUpTo, Grew, Reasoned, Forceable, ListsOk, WatchedUpTo, Rewatched, Loadable, AmplyWatched, Extends, Elems, TrailOk,
      Watching, ConstrOk, FirstLargest, Level;
    SampleLoadable();
    p := new Propagator(4, [Sample()], []);
    FirstWatches(p.watched[0]);
    NoneBound(p.model);
    ghost var ws0, r0 := p.watched[0], p.reason;
    assert p.model[2 := SignedLevel(Lit(2, false), 2)] == [0, 0, -2, 0] && p.trail + [Lit(2, false)] == [Lit(2, false)];
    var confl := p.UnifyLiteral(Lit(2, false), 2);
    NothingAdded(p.model, p.trail, r0, p.reason);
    BoundByOne(p.model, p.trail);
    FirstSlack(p.model, []);
    FirstDecision(ws0, p.watched[0], p.model, p.trail);
    SecondUnwatched(p.watched);
    SameReasons(p.model, p.trail, r0, p.reason);
    confl := p.UnifyLiteral(Lit(3, false), 3);
    SecondBound(p.model, p.trail, p.reason, r0);
    BoundByTwo(p.model, p.trail);
    BothForced();
  }

  lemma NoneBound(m: Model)
    requires |m| == 4 && TrailOk(m, [])
    ensures m == [0, 0, 0, 0]
  {
    assert forall v :: 0 <= v < 4 && m[v] != 0 ==> True(m, Lit(v, m[v] > 0));
  }

  lemma SecondUnwatched(watched: seq<seq<bool>>)
    requires watched == [[true, true, false, false]]
    ensures Unwatched([Sample()], watched, [Lit(3, false)])
  {
  }

  lemma SameReasons(m: Model, t: seq<Lit>, reason0: seq<Option<nat>>, reason: seq<Option<nat>>)
    requires m == [0, 0, -2, 0] && Grew(m, [Lit(2, false)], reason0, m, t, reason, 2)
    ensures reason == reason0
  {
  }

  lemma SecondBound(m: Model, t: seq<Lit>, reason: seq<Option<nat>>, reason0: seq<Option<nat>>)
    requires Grew([0, 0, -2, 0][3 := -3], [Lit(2, false)] + [Lit(3, false)], reason0, m, t, reason, 3)
    ensures |m| == 4 && m[2] == -2 && m[3] == -3
  {
    var m0 := [0, 0, -2, -3];
    assert m[2] == m0[2] && m[3] == m0[3];
  }
}
