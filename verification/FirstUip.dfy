// The clause learned from a conflict, said without the traversal that finds it (solver/learn.go): which trail
// literals the conflict rests on, what the first unique implication point is, and which literals minimisation drops.
module FirstUip {
  import opened Logic
  import opened Bindings
  import opened Watches
  import opened State
  import opened Learn

  ghost predicate ReasonHas(s: Core, q: nat, l: Lit)
    requires q < |s.trail|
  {
    s.trail[q].v < |s.reason|
    && match s.reason[s.trail[q].v]
       case None => false
       case Some(c) => c < |s.clauses| && l in s.clauses[c]
  }

  // The conflict rests on the literal at p, once the literals of level lvl after `cut` are traced to their reasons.
  ghost predicate Rests(s: Core, confl: Clause, lvl: nat, cut: int, p: nat)
    requires p < |s.trail|
    decreases |s.trail| - p
  {
    s.trail[p].Neg() in confl
    || exists q :: p < q < |s.trail| && cut < q && Level(s.model, s.trail[q].v) == lvl
                   && Rests(s, confl, lvl, cut, q) && ReasonHas(s, q, s.trail[p].Neg())
  }

  // A unique implication point: the only literal of the level, up to u, on which the conflict then rests.
  ghost predicate IsUip(s: Core, confl: Clause, lvl: nat, u: nat)
    requires u < |s.trail|
  {
    Level(s.model, s.trail[u].v) == lvl && Rests(s, confl, lvl, u, u)
    && forall p :: 0 <= p < u && Level(s.model, s.trail[p].v) == lvl ==> !Rests(s, confl, lvl, u, p)
  }

  ghost predicate NoUipAfter(s: Core, confl: Clause, lvl: nat, ptr: int)
  {
    forall u :: 0 <= u < |s.trail| && ptr < u ==> !IsUip(s, confl, lvl, u)
  }

  // The one closest to the conflict.
  ghost predicate First(s: Core, confl: Clause, lvl: nat, u: nat)
  {
    u < |s.trail| && IsUip(s, confl, lvl, u) && NoUipAfter(s, confl, lvl, u)
  }

  // The conflict rests on the negation of l, which was bound below the level of the conflict.
  ghost predicate Lower(s: Core, confl: Clause, lvl: nat, u: nat, l: Lit)
  {
    Level(s.model, l.v) < lvl && exists p :: 0 <= p < |s.trail| && s.trail[p] == l.Neg() && Rests(s, confl, lvl, u, p)
  }

  // -l was forced by a clause all of whose other literals are lower ones too.
  ghost predicate Droppable(s: Core, confl: Clause, lvl: nat, u: nat, l: Lit)
  {
    l.v < |s.reason|
    && match s.reason[l.v]
       case None => false
       case Some(c) => c < |s.clauses| && forall k :: k in s.clauses[c] && k != l.Neg() ==> Lower(s, confl, lvl, u, k)
  }

  // The clause to learn: the negated first unique implication point, and the lower literals that cannot be dropped.
  ghost predicate FromUip(s: Core, confl: Clause, lvl: nat, m: Clause)
  {
    exists u :: First(s, confl, lvl, u) && LearntAt(s, confl, lvl, u, m)
  }

  ghost predicate LearntAt(s: Core, confl: Clause, lvl: nat, u: nat, m: Clause)
  {
    u < |s.trail| && |m| >= 1 && m[0] == s.trail[u].Neg() && DistinctVars(m)
    && forall l :: l in m[1..] <==> Lower(s, confl, lvl, u, l) && !Droppable(s, confl, lvl, u, l)
  }

  // ----- the traversal marks nothing else -----

  // What is marked or collected is rested on.
  ghost predicate Honest(s: Core, confl: Clause, lvl: nat, metLvl: seq<bool>, lits: seq<Lit>, cut: int)
  {
    lvl >= 2 ==>
      (forall p :: 0 <= p < |s.trail| && s.trail[p].v < |metLvl| && metLvl[s.trail[p].v] ==> Rests(s, confl, lvl, cut, p))
      && |lits| >= 1
      && forall l :: l in lits[1..] ==> exists p :: 0 <= p < |s.trail| && s.trail[p] == l.Neg() && Rests(s, confl, lvl, cut, p)
  }

  lemma {:induction false} RestsLower(s: Core, confl: Clause, lvl: nat, cut: int, cut': int, p: nat)
    requires p < |s.trail| && cut' <= cut && Rests(s, confl, lvl, cut, p)
    ensures Rests(s, confl, lvl, cut', p)
    decreases |s.trail| - p
  {
    if s.trail[p].Neg() !in confl {
      var q :| p < q < |s.trail| && cut < q && Level(s.model, s.trail[q].v) == lvl
               && Rests(s, confl, lvl, cut, q) && ReasonHas(s, q, s.trail[p].Neg());
      RestsLower(s, confl, lvl, cut, cut', q);
    }
  }

  lemma HonestLower(s: Core, confl: Clause, lvl: nat, metLvl: seq<bool>, lits: seq<Lit>, cut: int, cut': int)
    requires Honest(s, confl, lvl, metLvl, lits, cut) && cut' <= cut
    ensures Honest(s, confl, lvl, metLvl, lits, cut')
  {
    forall p | 0 <= p < |s.trail| && Rests(s, confl, lvl, cut, p) ensures Rests(s, confl, lvl, cut', p) {
      RestsLower(s, confl, lvl, cut, cut', p);
    }
    hide Rests;
  }

  lemma HonestStart(s: Core, confl: Clause, lvl: nat, n: nat, cut: int)
    ensures Honest(s, confl, lvl, NoMarks(n), [Lit(0, true)], cut)
  {
    assert [Lit(0, true)][1..] == [];
  }

  // One more literal, the negation of the one at r.
  lemma HonestAdd(s: Core, confl: Clause, lvl: nat, metLvl: seq<bool>, lits: seq<Lit>, cut: int, l: Lit, r: nat)
    requires Honest(s, confl, lvl, metLvl, lits, cut) && TrailOk(s.model, s.trail) && |lits| >= 1 && l.v < |metLvl|
    requires r < |s.trail| && s.trail[r] == l.Neg() && Rests(s, confl, lvl, cut, r)
    ensures Level(s.model, l.v) == lvl ==> Honest(s, confl, lvl, metLvl[l.v := true], lits, cut)
    ensures Honest(s, confl, lvl, metLvl, lits + [l], cut)
  {
    PlaceOf(s, r);
    hide Rests, TrailOk, Level;
    assert (lits + [l])[1..] == lits[1..] + [l];
  }

  lemma FromConflict(s: Core, confl: Clause, lvl: nat, cut: int, l: Lit, r: nat)
    requires l in confl && r < |s.trail| && s.trail[r] == l.Neg()
    ensures Rests(s, confl, lvl, cut, r)
  {
    assert l.Neg().Neg() == l;
  }

  lemma FromReason(s: Core, confl: Clause, lvl: nat, cut: int, l: Lit, r: nat, p: nat)
    requires r < p < |s.trail| && s.trail[r] == l.Neg() && cut < p && Rests(s, confl, lvl, cut, p)
    requires Level(s.model, s.trail[p].v) == lvl && ReasonHas(s, p, l)
    ensures Rests(s, confl, lvl, cut, r)
  {
    assert l.Neg().Neg() == l;
  }

  // ----- and it misses nothing -----

  lemma TakenMarked(s: Core, lvl: nat, met: seq<bool>, metLvl: seq<bool>, lits: seq<Lit>, p: nat)
    requires p < |s.trail| && Taken(s, lvl, met, metLvl, s.trail[p].Neg()) && Collected(s, lvl, met, lits)
    requires TrailOk(s.model, s.trail) && lvl >= 2
    ensures Level(s.model, s.trail[p].v) == lvl ==> s.trail[p].v < |metLvl| && metLvl[s.trail[p].v]
    ensures Level(s.model, s.trail[p].v) < lvl ==> s.trail[p].Neg() in lits[1..]
  {
    assert True(s.model, s.trail[p]);
    if Level(s.model, s.trail[p].v) < lvl {
      var k :| k in lits[1..] && k.v == s.trail[p].v;
      assert False(s.model, k);
    }
  }

  lemma {:induction false} RestsMarked(s: Core, confl: Clause, lvl: nat, met: seq<bool>, metLvl: seq<bool>, lits: seq<Lit>,
                                       ptr: int, p: nat)
    requires Walk(s, confl, lvl, met, metLvl, lits, ptr) && TrailOk(s.model, s.trail) && lvl >= 2
    requires p < |s.trail| && Rests(s, confl, lvl, ptr, p)
    ensures Level(s.model, s.trail[p].v) == lvl ==> s.trail[p].v < |metLvl| && metLvl[s.trail[p].v]
    ensures Level(s.model, s.trail[p].v) < lvl ==> s.trail[p].Neg() in lits[1..]
    decreases |s.trail| - p
  {
    hide Marks, Collected;
    var l := s.trail[p].Neg();
    if l !in confl {
      var q :| p < q < |s.trail| && ptr < q && Level(s.model, s.trail[q].v) == lvl
               && Rests(s, confl, lvl, ptr, q) && ReasonHas(s, q, l);
      RestsMarked(s, confl, lvl, met, metLvl, lits, ptr, q);
      assert Resolved(s, lvl, met, metLvl, q);
      assert l != s.trail[q] by {
        assert True(s.model, s.trail[p]) && True(s.model, s.trail[q]);
      }
    }
    TakenMarked(s, lvl, met, metLvl, lits, p);
  }

  // ----- no earlier stop -----

  // A marked position passed with another one marked below it is no unique implication point.
  lemma PassMarked(s: Core, confl: Clause, lvl: nat, met: seq<bool>, metLvl: seq<bool>, lits: seq<Lit>, ptr: nat)
    requires Walk(s, confl, lvl, met, metLvl, lits, ptr) && Honest(s, confl, lvl, metLvl, lits, ptr)
    requires NoUipAfter(s, confl, lvl, ptr) && lvl >= 2
    requires s.trail[ptr].v < |metLvl| && metLvl[s.trail[ptr].v] && |MarkedBelow(s.trail, metLvl, ptr + 1)| > 1
    ensures NoUipAfter(s, confl, lvl, ptr - 1)
  {
    CountPop(s.trail, metLvl, ptr);
    var q :| q in MarkedBelow(s.trail, metLvl, ptr);
    hide Rests;
    assert Level(s.model, s.trail[q].v) == lvl && Rests(s, confl, lvl, ptr, q);
    assert !IsUip(s, confl, lvl, ptr);
  }

  lemma PassUnmarked(s: Core, confl: Clause, lvl: nat, met: seq<bool>, metLvl: seq<bool>, lits: seq<Lit>, ptr: nat)
    requires Walk(s, confl, lvl, met, metLvl, lits, ptr) && TrailOk(s.model, s.trail) && lvl >= 2
    requires NoUipAfter(s, confl, lvl, ptr) && s.trail[ptr].v < |metLvl| && !metLvl[s.trail[ptr].v]
    ensures NoUipAfter(s, confl, lvl, ptr - 1)
  {
    if IsUip(s, confl, lvl, ptr) {
      RestsMarked(s, confl, lvl, met, metLvl, lits, ptr, ptr);
    }
    hide IsUip;
  }

  // ----- the end of the traversal -----

  // Positions on which nothing rests need not be traced.
  lemma {:induction false} SameCut(s: Core, confl: Clause, lvl: nat, u: int, ptr: int, p: nat)
    requires u <= ptr && p < |s.trail|
    requires forall q :: 0 <= q < |s.trail| && u < q <= ptr && Level(s.model, s.trail[q].v) == lvl ==> !Rests(s, confl, lvl, ptr, q)
    ensures Rests(s, confl, lvl, u, p) <==> Rests(s, confl, lvl, ptr, p)
    decreases |s.trail| - p
  {
    if Rests(s, confl, lvl, ptr, p) {
      RestsLower(s, confl, lvl, ptr, u, p);
    } else if Rests(s, confl, lvl, u, p) {
      var q :| p < q < |s.trail| && u < q && Level(s.model, s.trail[q].v) == lvl
               && Rests(s, confl, lvl, u, q) && ReasonHas(s, q, s.trail[p].Neg());
      SameCut(s, confl, lvl, u, ptr, q);
      assert false;
    }
  }

  // u is the point to learn from, and lits, but for the first, are the literals to learn with it.
  ghost predicate Traced(s: Core, confl: Clause, lvl: nat, u: nat, lits: seq<Lit>)
  {
    First(s, confl, lvl, u) && |lits| >= 1 && forall l :: l in lits[1..] <==> Lower(s, confl, lvl, u, l)
  }

  lemma OnlyMarked(s: Core, confl: Clause, lvl: nat, met: seq<bool>, metLvl: seq<bool>, lits: seq<Lit>, ptr: int, u: nat, q: nat)
    requires Walk(s, confl, lvl, met, metLvl, lits, ptr) && TrailOk(s.model, s.trail) && lvl >= 2
    requires |MarkedBelow(s.trail, metLvl, ptr + 1)| == 1 && u in MarkedBelow(s.trail, metLvl, ptr + 1)
    requires q < |s.trail| && q <= ptr && q != u && Level(s.model, s.trail[q].v) == lvl
    ensures !Rests(s, confl, lvl, ptr, q)
  {
    if Rests(s, confl, lvl, ptr, q) {
      RestsMarked(s, confl, lvl, met, metLvl, lits, ptr, q);
      OnlyOne(MarkedBelow(s.trail, metLvl, ptr + 1), u, q);
    }
  }

  lemma UipFound(s: Core, confl: Clause, lvl: nat, met: seq<bool>, metLvl: seq<bool>, lits: seq<Lit>, ptr: int, u: nat)
    requires Walk(s, confl, lvl, met, metLvl, lits, ptr) && Honest(s, confl, lvl, metLvl, lits, ptr)
    requires NoUipAfter(s, confl, lvl, ptr) && TrailOk(s.model, s.trail) && lvl >= 2
    requires |MarkedBelow(s.trail, metLvl, ptr + 1)| == 1
    requires u < |s.trail| && s.trail[u].v < |metLvl| && metLvl[s.trail[u].v]
    requires forall p :: 0 <= p < u ==> s.trail[p].v < |metLvl| && !metLvl[s.trail[p].v]
    ensures Traced(s, confl, lvl, u, lits)
  {
    UipMarked(s, confl, lvl, met, metLvl, lits, ptr, u);
    forall q, p | u <= q <= ptr && 0 <= p < |s.trail| ensures Rests(s, confl, lvl, q, p) <==> Rests(s, confl, lvl, ptr, p) {
      SameCut(s, confl, lvl, q, ptr, p);
    }
    forall l ensures l in lits[1..] <==> Lower(s, confl, lvl, u, l) {
      LowerCollected(s, confl, lvl, met, metLvl, lits, ptr, u, l);
    }
    assert |lits| >= 1;
    hide Rests, Honest, Walk, TrailOk, Lower, Level, MarkedBelow;
    forall q | 0 <= q < |s.trail| && u < q ensures !IsUip(s, confl, lvl, q) {
      assert q <= ptr ==> (Rests(s, confl, lvl, q, q) <==> Rests(s, confl, lvl, ptr, q));
    }
    assert IsUip(s, confl, lvl, u);
  }

  // The marked position left is the only one of the level on which the conflict rests.
  lemma UipMarked(s: Core, confl: Clause, lvl: nat, met: seq<bool>, metLvl: seq<bool>, lits: seq<Lit>, ptr: int, u: nat)
    requires Walk(s, confl, lvl, met, metLvl, lits, ptr) && Honest(s, confl, lvl, metLvl, lits, ptr)
    requires TrailOk(s.model, s.trail) && lvl >= 2
    requires |MarkedBelow(s.trail, metLvl, ptr + 1)| == 1
    requires u < |s.trail| && s.trail[u].v < |metLvl| && metLvl[s.trail[u].v]
    requires forall p :: 0 <= p < u ==> s.trail[p].v < |metLvl| && !metLvl[s.trail[p].v]
    ensures u <= ptr < |s.trail| && Level(s.model, s.trail[u].v) == lvl && Rests(s, confl, lvl, ptr, u)
    ensures forall q :: 0 <= q <= ptr && q != u && Level(s.model, s.trail[q].v) == lvl ==> !Rests(s, confl, lvl, ptr, q)
  {
    var below := MarkedBelow(s.trail, metLvl, ptr + 1);
    var only :| only in below;
    assert u in below;
    hide Rests;
    forall q | 0 <= q <= ptr && q != u && Level(s.model, s.trail[q].v) == lvl ensures !Rests(s, confl, lvl, ptr, q) {
      OnlyMarked(s, confl, lvl, met, metLvl, lits, ptr, u, q);
    }
  }

  lemma LowerCollected(s: Core, confl: Clause, lvl: nat, met: seq<bool>, metLvl: seq<bool>, lits: seq<Lit>, ptr: int, u: nat, l: Lit)
    requires Walk(s, confl, lvl, met, metLvl, lits, ptr) && Honest(s, confl, lvl, metLvl, lits, ptr)
    requires TrailOk(s.model, s.trail) && lvl >= 2
    requires forall p :: 0 <= p < |s.trail| ==> (Rests(s, confl, lvl, u, p) <==> Rests(s, confl, lvl, ptr, p))
    ensures l in lits[1..] <==> Lower(s, confl, lvl, u, l)
  {
    if l in lits[1..] {
      var p :| 0 <= p < |s.trail| && s.trail[p] == l.Neg() && Rests(s, confl, lvl, ptr, p);
      assert Rests(s, confl, lvl, u, p);
    }
    if Lower(s, confl, lvl, u, l) {
      var p :| 0 <= p < |s.trail| && s.trail[p] == l.Neg() && Rests(s, confl, lvl, u, p);
      RestsMarked(s, confl, lvl, met, metLvl, lits, ptr, p);
      assert l.Neg().Neg() == l;
    }
  }

  // Met variables of lower levels are those of the literals collected, so minimisation drops what it should.
  lemma RedundantIs(s: Core, nbVars: nat, confl: Clause, lvl: nat, met: seq<bool>, lits: seq<Lit>, u: nat, l: Lit)
    requires CoreOk(s, nbVars) && Traced(s, confl, lvl, u, lits) && Collected(s, lvl, met, lits) && |met| == |s.model|
    requires l in lits[1..]
    ensures Redundant(s, met, l) <==> Droppable(s, confl, lvl, u, l)
  {
    hide Lower, First, TrailOk, ReasonsOk, DbOk, LocksOk;
    if l.v < |s.reason| && s.reason[l.v].Some? && s.reason[l.v].value < |s.clauses| {
      var c := s.reason[l.v].value;
      forall k | k in s.clauses[c] ensures k.v < |met| && (met[k.v] <==> k == l.Neg() || Lower(s, confl, lvl, u, k)) {
        MetIs(s, nbVars, confl, lvl, met, lits, u, l, c, k);
      }
    }
  }

  lemma MetIs(s: Core, nbVars: nat, confl: Clause, lvl: nat, met: seq<bool>, lits: seq<Lit>, u: nat, l: Lit, c: nat, k: Lit)
    requires CoreOk(s, nbVars) && Traced(s, confl, lvl, u, lits) && Collected(s, lvl, met, lits) && |met| == |s.model|
    requires l in lits[1..] && l.v < |s.reason| && s.reason[l.v] == Some(c) && c < |s.clauses| && k in s.clauses[c]
    ensures k.v < |met| && (met[k.v] <==> k == l.Neg() || Lower(s, confl, lvl, u, k))
  {
    LiteralPlace(s, nbVars, lvl, met, lits, l);
    var p :| 0 <= p < |s.trail| && s.trail[p] == l.Neg();
    if k != l.Neg() {
      EarlierFalse(s, p, c, k);
      MetLower(s, lvl, met, lits, k);
    }
    hide Lower, First, Collected, CoreOk, Level;
  }

  lemma LiteralPlace(s: Core, nbVars: nat, lvl: nat, met: seq<bool>, lits: seq<Lit>, l: Lit)
    requires CoreOk(s, nbVars) && Collected(s, lvl, met, lits) && l in lits[1..] && |met| == |s.model|
    ensures Bound(s.model, s.trail, s.reason, s.clauses) && Level(s.model, l.v) < lvl && l.v < |met| && met[l.v]
    ensures exists p :: 0 <= p < |s.trail| && s.trail[p] == l.Neg()
  {
    FalseInTrail(s.model, s.trail, l);
  }

  // A false literal of a lower level was met exactly if it was collected.
  lemma MetLower(s: Core, lvl: nat, met: seq<bool>, lits: seq<Lit>, k: Lit)
    requires Collected(s, lvl, met, lits) && |met| == |s.model| && False(s.model, k) && Level(s.model, k.v) < lvl
    ensures k.v < |met| && (met[k.v] <==> k in lits[1..])
  {
    if met[k.v] {
      var j :| j in lits[1..] && j.v == k.v;
      assert False(s.model, j) && j == k;
    }
  }

  lemma LearntDone(s: Core, nbVars: nat, confl: Clause, lvl: nat, met: seq<bool>, lits: seq<Lit>, u: nat, m: Clause)
    requires CoreOk(s, nbVars) && Traced(s, confl, lvl, u, lits) && Collected(s, lvl, met, lits) && |met| == |s.model|
    requires Minimised(s, met, lits, m) && lits[0] == s.trail[u].Neg() && DistinctVars(m)
    ensures FromUip(s, confl, lvl, m)
  {
    hide CoreOk, Collected, Redundant, Droppable, Lower, First;
    forall l ensures l in m[1..] <==> Lower(s, confl, lvl, u, l) && !Droppable(s, confl, lvl, u, l) {
      if l in lits[1..] {
        RedundantIs(s, nbVars, confl, lvl, met, lits, u, l);
      }
    }
    assert LearntAt(s, confl, lvl, u, m) by {
      assert u < |s.trail| by {
        FirstIn(s, confl, lvl, u);
      }
    }
  }

  lemma LearntIs(s: Core, nbVars: nat, confl: Clause, lvl: nat, met: seq<bool>, metLvl: seq<bool>, lits: seq<Lit>, u: nat, m: Clause)
    requires CoreOk(s, nbVars) && Traced(s, confl, lvl, u, lits) && Finished(s, confl, lvl, met, metLvl, lits, u)
    requires Minimised(s, met, lits, m) && Asserting(s, lvl, m)
    ensures FromUip(s, confl, lvl, m)
  {
    hide CoreOk, Traced, Collected, Minimised, FromUip, DistinctVars;
    LearntDone(s, nbVars, confl, lvl, met, lits, u, m);
  }

  lemma FirstIn(s: Core, confl: Clause, lvl: nat, u: nat)
    requires First(s, confl, lvl, u)
    ensures u < |s.trail|
  {
  }

  // ----- what the traversal keeps -----

  // Down to ptr, what is marked or collected is rested on, and no position passed was the one to stop at.
  ghost predicate OnWay(s: Core, confl: Clause, lvl: nat, metLvl: seq<bool>, lits: seq<Lit>, ptr: int)
  {
    Honest(s, confl, lvl, metLvl, lits, ptr) && (lvl >= 2 ==> NoUipAfter(s, confl, lvl, ptr))
  }

  lemma OnWayStart(s: Core, confl: Clause, lvl: nat, n: nat)
    ensures OnWay(s, confl, lvl, NoMarks(n), [Lit(0, true)], |s.trail| - 1)
  {
    HonestStart(s, confl, lvl, n, |s.trail| - 1);
  }

  // One more literal of the conflict.
  lemma OnWayConflict(s: Core, confl: Clause, lvl: nat, metLvl: seq<bool>, lits: seq<Lit>, n: nat)
    requires OnWay(s, confl, lvl, metLvl, lits, |s.trail| - 1) && n < |confl| && |lits| >= 1 && confl[n].v < |metLvl|
    requires AllFalse(s.model, confl) && TrailOk(s.model, s.trail) && LevelsUpTo(s.model, s.trail, lvl)
    ensures Level(s.model, confl[n].v) == lvl ==> OnWay(s, confl, lvl, metLvl[confl[n].v := true], lits, |s.trail| - 1)
    ensures OnWay(s, confl, lvl, metLvl, lits + [confl[n]], |s.trail| - 1)
  {
    var l := confl[n];
    ConflictLit(s, confl, lvl, n);
    var r :| 0 <= r < |s.trail| && s.trail[r] == l.Neg();
    FromConflict(s, confl, lvl, |s.trail| - 1, l, r);
    HonestAdd(s, confl, lvl, metLvl, lits, |s.trail| - 1, l, r);
  }

  // One more literal of the reason of the marked position p.
  lemma OnWayReason(s: Core, nbVars: nat, confl: Clause, lvl: nat, metLvl: seq<bool>, lits: seq<Lit>, p: nat, c: nat, l: Lit)
    requires OnWay(s, confl, lvl, metLvl, lits, p - 1) && CoreOk(s, nbVars) && p < |s.trail| && |lits| >= 1
    requires s.trail[p].v < |metLvl| && metLvl[s.trail[p].v] && Level(s.model, s.trail[p].v) == lvl
    requires s.reason[s.trail[p].v] == Some(c) && c < |s.clauses| && l in s.clauses[c] && l != s.trail[p] && l.v < |metLvl|
    ensures Level(s.model, l.v) == lvl ==> OnWay(s, confl, lvl, metLvl[l.v := true], lits, p - 1)
    ensures OnWay(s, confl, lvl, metLvl, lits + [l], p - 1)
  {
    hide *;
    TrailIn(s, nbVars);
    EarlierFalse(s, p, c, l);
    var r :| 0 <= r < p && s.trail[r] == l.Neg();
    OnWayAdd(s, confl, lvl, metLvl, lits, p, c, l, r);
  }

  lemma OnWayAdd(s: Core, confl: Clause, lvl: nat, metLvl: seq<bool>, lits: seq<Lit>, p: nat, c: nat, l: Lit, r: nat)
    requires OnWay(s, confl, lvl, metLvl, lits, p - 1) && r < p < |s.trail| && s.trail[r] == l.Neg() && |lits| >= 1
    requires s.trail[p].v < |metLvl| && metLvl[s.trail[p].v] && Level(s.model, s.trail[p].v) == lvl && s.trail[p].v < |s.reason|
    requires s.reason[s.trail[p].v] == Some(c) && c < |s.clauses| && l in s.clauses[c] && l.v < |metLvl| && TrailOk(s.model, s.trail)
    ensures Level(s.model, l.v) == lvl ==> OnWay(s, confl, lvl, metLvl[l.v := true], lits, p - 1)
    ensures OnWay(s, confl, lvl, metLvl, lits + [l], p - 1)
  {
    hide NoUipAfter, Rests, TrailOk, Level;
    if lvl >= 2 {
      RestsOn(s, confl, lvl, metLvl, lits, p, c, l, r);
      HonestAdd(s, confl, lvl, metLvl, lits, p - 1, l, r);
    }
  }

  lemma RestsOn(s: Core, confl: Clause, lvl: nat, metLvl: seq<bool>, lits: seq<Lit>, p: nat, c: nat, l: Lit, r: nat)
    requires OnWay(s, confl, lvl, metLvl, lits, p - 1) && r < p < |s.trail| && lvl >= 2 && s.trail[r] == l.Neg()
    requires s.trail[p].v < |metLvl| && metLvl[s.trail[p].v] && Level(s.model, s.trail[p].v) == lvl && s.trail[p].v < |s.reason|
    requires s.reason[s.trail[p].v] == Some(c) && c < |s.clauses| && l in s.clauses[c]
    ensures Honest(s, confl, lvl, metLvl, lits, p - 1) && Rests(s, confl, lvl, p - 1, r)
  {
    hide Rests;
    assert Rests(s, confl, lvl, p - 1, p);
    FromReason(s, confl, lvl, p - 1, l, r, p);
  }

  lemma TrailIn(s: Core, nbVars: nat)
    requires CoreOk(s, nbVars)
    ensures TrailOk(s.model, s.trail) && Bound(s.model, s.trail, s.reason, s.clauses) && |s.reason| == nbVars
    ensures forall i :: 0 <= i < |s.trail| ==> s.trail[i].v < nbVars
  {
  }

  lemma OnWayPass(s: Core, confl: Clause, lvl: nat, met: seq<bool>, metLvl: seq<bool>, lits: seq<Lit>, ptr: nat)
    requires Walk(s, confl, lvl, met, metLvl, lits, ptr) && TrailOk(s.model, s.trail)
    requires OnWay(s, confl, lvl, metLvl, lits, ptr) && s.trail[ptr].v < |metLvl| && !metLvl[s.trail[ptr].v]
    ensures OnWay(s, confl, lvl, metLvl, lits, ptr - 1)
  {
    HonestLower(s, confl, lvl, metLvl, lits, ptr, ptr - 1);
    if lvl >= 2 {
      PassUnmarked(s, confl, lvl, met, metLvl, lits, ptr);
    }
  }

  lemma OnWayPop(s: Core, confl: Clause, lvl: nat, met: seq<bool>, metLvl: seq<bool>, lits: seq<Lit>, ptr: nat)
    requires Walk(s, confl, lvl, met, metLvl, lits, ptr) && OnWay(s, confl, lvl, metLvl, lits, ptr)
    requires s.trail[ptr].v < |metLvl| && metLvl[s.trail[ptr].v] && |MarkedBelow(s.trail, metLvl, ptr + 1)| > 1
    ensures OnWay(s, confl, lvl, metLvl, lits, ptr - 1)
  {
    HonestLower(s, confl, lvl, metLvl, lits, ptr, ptr - 1);
    if lvl >= 2 {
      PassMarked(s, confl, lvl, met, metLvl, lits, ptr);
    }
  }

  lemma OnWayEnd(s: Core, confl: Clause, lvl: nat, met: seq<bool>, metLvl: seq<bool>, lits: seq<Lit>, ptr: int, u: nat)
    requires Walk(s, confl, lvl, met, metLvl, lits, ptr) && OnWay(s, confl, lvl, metLvl, lits, ptr) && TrailOk(s.model, s.trail)
    requires lvl >= 2 ==> |MarkedBelow(s.trail, metLvl, ptr + 1)| == 1
    requires u < |s.trail| && s.trail[u].v < |metLvl| && metLvl[s.trail[u].v]
    requires forall p :: 0 <= p < u ==> s.trail[p].v < |metLvl| && !metLvl[s.trail[p].v]
    ensures lvl >= 2 ==> Traced(s, confl, lvl, u, lits)
  {
    if lvl >= 2 {
      UipFound(s, confl, lvl, met, metLvl, lits, ptr, u);
    }
  }

  // The first literal is a placeholder until the end.
  lemma TracedHead(s: Core, confl: Clause, lvl: nat, u: nat, lits: seq<Lit>, l: Lit)
    requires lvl >= 2 ==> Traced(s, confl, lvl, u, lits)
    requires |lits| >= 1
    ensures lvl >= 2 ==> Traced(s, confl, lvl, u, lits[0 := l])
  {
    assert lits[0 := l][1..] == lits[1..];
  }

  // What nbLvl says of the marked trail positions; a literal given twice at level 1 has two of them.
  ghost predicate Counts(lvl: nat, nbLvl: int, marked: nat) { nbLvl <= marked && (lvl != 1 ==> nbLvl == marked) }

  // While the conflict is being marked: its first n literals have been.
  ghost predicate Marking(s: Core, nbVars: nat, confl: Clause, lvl: nat, met: seq<bool>, metLvl: seq<bool>, lits: seq<Lit>,
                          nbLvl: int, n: nat)
  {
    |met| == |metLvl| == nbVars && |lits| >= 1 && nbLvl >= 0
    && ConflictRead(s, confl, lvl, met, metLvl, lits, n) && OnWay(s, confl, lvl, metLvl, lits, |s.trail| - 1)
    && Counts(lvl, nbLvl, |MarkedBelow(s.trail, metLvl, |s.trail|)|)
    && forall k :: 0 <= k < n && k < |confl| && Level(s.model, confl[k].v) == lvl ==> nbLvl >= 1
  }

  lemma MarkingStart(s: Core, nbVars: nat, confl: Clause, lvl: nat)
    requires AllFalse(s.model, confl) && |s.model| == nbVars
    ensures Marking(s, nbVars, confl, lvl, NoMarks(nbVars), NoMarks(nbVars), [Lit(0, true)], 0, 0)
  {
    ConflictStart(s, confl, lvl);
    OnWayStart(s, confl, lvl, nbVars);
  }

  lemma MarkingNext(s: Core, nbVars: nat, confl: Clause, lvl: nat, met: seq<bool>, metLvl: seq<bool>, lits: seq<Lit>,
                    nbLvl: int, n: nat)
    requires Marking(s, nbVars, confl, lvl, met, metLvl, lits, nbLvl, n) && n < |confl|
    requires TrailOk(s.model, s.trail) && LevelsUpTo(s.model, s.trail, lvl) && AllFalse(s.model, confl) && DistinctVars(confl)
    ensures confl[n].v < nbVars
    ensures var l := confl[n];
            if Level(s.model, l.v) == lvl
            then Marking(s, nbVars, confl, lvl, met[l.v := true], metLvl[l.v := true], lits, nbLvl + 1, n + 1)
            else Marking(s, nbVars, confl, lvl, met[l.v := true], metLvl, lits + [l], nbLvl, n + 1)
  {
    ConflictInRange(s, confl, lvl, met, metLvl, lits, n);
    OnWayConflict(s, confl, lvl, metLvl, lits, n);
    if Level(s.model, confl[n].v) == lvl {
      ConflictTop(s, confl, lvl, met, metLvl, lits, n);
    } else {
      ConflictLow(s, confl, lvl, met, metLvl, lits, n);
    }
    hide OnWay, ConflictRead, LevelsUpTo, TrailOk, Level, AllFalse, DistinctVars, MarkedBelow;
  }

  lemma MarkingDone(s: Core, nbVars: nat, confl: Clause, lvl: nat, met: seq<bool>, metLvl: seq<bool>, lits: seq<Lit>, nbLvl: int)
    requires Marking(s, nbVars, confl, lvl, met, metLvl, lits, nbLvl, |confl|)
    ensures Walk(s, confl, lvl, met, metLvl, lits, |s.trail| - 1) && OnWay(s, confl, lvl, metLvl, lits, |s.trail| - 1)
    ensures Counts(lvl, nbLvl, |MarkedBelow(s.trail, metLvl, |s.trail|)|)
    ensures (exists l :: l in confl && Level(s.model, l.v) == lvl) ==> nbLvl >= 1
  {
    ConflictDone(s, confl, lvl, met, metLvl, lits);
  }

  // While the reason c of position p is being read: its first n literals have been.
  ghost predicate Tracing(s: Core, nbVars: nat, confl: Clause, lvl: nat, met: seq<bool>, metLvl: seq<bool>, lits: seq<Lit>,
                          nbLvl: int, p: nat, c: nat, n: nat)
  {
    |met| == |metLvl| == nbVars && |lits| >= 1 && c < |s.clauses| && p < |s.trail| && s.trail[p].v < nbVars
    && metLvl[s.trail[p].v] && Level(s.model, s.trail[p].v) == lvl
    && Reading(s, confl, lvl, met, metLvl, lits, p, s.clauses[c], n) && OnWay(s, confl, lvl, metLvl, lits, p - 1)
    && Counts(lvl, nbLvl, |MarkedBelow(s.trail, metLvl, p)|)
  }

  lemma TracingStart(s: Core, nbVars: nat, confl: Clause, lvl: nat, met: seq<bool>, metLvl: seq<bool>, lits: seq<Lit>,
                     nbLvl: int, p: nat, c: nat)
    requires Walk(s, confl, lvl, met, metLvl, lits, p) && OnWay(s, confl, lvl, metLvl, lits, p - 1) && c < |s.clauses|
    requires |met| == |metLvl| == nbVars && s.trail[p].v < nbVars && metLvl[s.trail[p].v]
    requires Counts(lvl, nbLvl, |MarkedBelow(s.trail, metLvl, p)|)
    ensures Tracing(s, nbVars, confl, lvl, met, metLvl, lits, nbLvl, p, c, 0)
  {
    StartReading(s, confl, lvl, met, metLvl, lits, p, s.clauses[c]);
    MarkedLevel(s, confl, lvl, met, metLvl, lits, p);
  }

  lemma TracingNext(s: Core, nbVars: nat, confl: Clause, lvl: nat, met: seq<bool>, metLvl: seq<bool>, lits: seq<Lit>,
                    nbLvl: int, p: nat, c: nat, n: nat)
    requires Tracing(s, nbVars, confl, lvl, met, metLvl, lits, nbLvl, p, c, n) && CoreOk(s, nbVars)
    requires LevelsUpTo(s.model, s.trail, lvl) && n < |s.clauses[c]| && s.reason[s.trail[p].v] == Some(c)
    ensures s.clauses[c][n].v < nbVars
    ensures var l := s.clauses[c][n];
            if met[l.v] then Tracing(s, nbVars, confl, lvl, met, metLvl, lits, nbLvl, p, c, n + 1)
            else if Level(s.model, l.v) == lvl
            then Tracing(s, nbVars, confl, lvl, met[l.v := true], metLvl[l.v := true], lits, nbLvl + 1, p, c, n + 1)
            else Tracing(s, nbVars, confl, lvl, met[l.v := true], metLvl, lits + [l], nbLvl, p, c, n + 1)
  {
    var l := s.clauses[c][n];
    ClauseVars(s, nbVars, c);
    assert l in s.clauses[c] && met[s.trail[p].v] && |s.model| == nbVars;
    if met[l.v] {
      ReadMet(s, confl, lvl, met, metLvl, lits, p, c, n);
    } else {
      OnWayReason(s, nbVars, confl, lvl, metLvl, lits, p, c, l);
      if Level(s.model, l.v) == lvl {
        ReadTop(s, confl, lvl, met, metLvl, lits, p, c, n);
      } else {
        ReadLow(s, confl, lvl, met, metLvl, lits, p, c, n);
      }
    }
    hide OnWay, Reading, CoreOk, LevelsUpTo, Level, MarkedBelow;
  }

  lemma TracingDone(s: Core, nbVars: nat, confl: Clause, lvl: nat, met: seq<bool>, metLvl: seq<bool>, lits: seq<Lit>,
                    nbLvl: int, p: nat, c: nat)
    requires c < |s.clauses| && Tracing(s, nbVars, confl, lvl, met, metLvl, lits, nbLvl, p, c, |s.clauses[c]|)
    requires s.trail[p].v < |s.reason| && s.reason[s.trail[p].v] == Some(c)
    ensures |met| == |metLvl| == nbVars && Walk(s, confl, lvl, met, metLvl, lits, p - 1)
    ensures OnWay(s, confl, lvl, metLvl, lits, p - 1) && Counts(lvl, nbLvl, |MarkedBelow(s.trail, metLvl, p)|)
  {
    DoneReading(s, confl, lvl, met, metLvl, lits, p, c);
  }
}
