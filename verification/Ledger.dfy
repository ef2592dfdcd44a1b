// Why the solver answers (solver/solver.go, solver/watcher.go): every conflict gives a literal of level 1 or a clause
// that is not there yet, there are only so many of both, and clauses are deleted at ever longer intervals. So the
// number of conflicts is bounded, and a restart takes conflicts.
module Ledger {
  import opened Logic
  import opened Bindings
  import opened Watches
  import opened State
  import opened Backjump
  import opened Certificate
  import opened Progress
  import opened Refinement
  import opened Steps

  const InitNbMaxClauses: nat := 2000
  const IncrNbMaxClauses: nat := 300
  const IncrPostponeNbMax: nat := 1000

  // The counters of the solver that matter here: conflicts, learned literals, deleted clauses, calls to reduceLearned,
  // and the two numbers whose product triggers the next.
  datatype Tab = Tab(conflicts: nat, units: nat, deleted: nat, reductions: nat, idxReduce: nat, nbMax: nat)

  // ----- there are only so many clauses -----

  // The clauses over the first n variables that mention no variable twice.
  ghost function AllBags(n: nat): set<Bag>
  {
    if n == 0 then {multiset{}}
    else AllBags(n - 1) + Each(AllBags(n - 1), Lit(n - 1, true)) + Each(AllBags(n - 1), Lit(n - 1, false))
  }

  ghost function Each(bs: set<Bag>, l: Lit): set<Bag> { set b | b in bs :: More(b, l) }

  ghost function More(b: Bag, l: Lit): Bag { b + multiset{l} }

  ghost function Capacity(n: nat): nat { |AllBags(n)| }

  lemma {:induction false} BagIn(c: Clause, n: nat)
    requires DistinctVars(c) && forall l :: l in c ==> l.v < n
    ensures multiset(c) in AllBags(n)
  {
    if n == 0 {
      assert forall l :: l in multiset(c) ==> l in c;
      assert multiset(c) == multiset{};
    } else {
      hide AllBags, DistinctVars;
      if exists i :: 0 <= i < |c| && c[i].v == n - 1 {
        var i :| 0 <= i < |c| && c[i].v == n - 1;
        OthersBelow(c, n, i);
        hide Without;
        BagIn(Without(c, i), n - 1);
        BagMore(multiset(Without(c, i)), c[i], n);
      } else {
        NoneThere(c, n);
        BagIn(c, n - 1);
        BagFewer(multiset(c), n);
      }
    }
  }

  lemma NoneThere(c: Clause, n: nat)
    requires n > 0 && (forall l :: l in c ==> l.v < n) && forall i :: 0 <= i < |c| ==> c[i].v != n - 1
    ensures forall l :: l in c ==> l.v < n - 1
  {
    forall l | l in c ensures l.v < n - 1 {
      var k :| 0 <= k < |c| && c[k] == l;
    }
  }

  lemma BagMore(b: Bag, l: Lit, n: nat)
    requires n > 0 && b in AllBags(n - 1) && l.v == n - 1
    ensures b + multiset{l} in AllBags(n)
  {
    assert l == Lit(n - 1, l.pos) && More(b, l) in Each(AllBags(n - 1), l);
  }

  lemma BagFewer(b: Bag, n: nat)
    requires n > 0 && b in AllBags(n - 1)
    ensures b in AllBags(n)
  {
  }

  lemma OthersBelow(c: Clause, n: nat, i: nat)
    requires DistinctVars(c) && (forall l :: l in c ==> l.v < n) && i < |c| && c[i].v == n - 1
    ensures DistinctVars(Without(c, i)) && forall l :: l in Without(c, i) ==> l.v < n - 1
    ensures multiset(c) == multiset(Without(c, i)) + multiset{c[i]}
  {
    var d := Without(c, i);
    assert c == c[..i] + [c[i]] + c[i + 1..];
    assert forall k :: 0 <= k < |d| ==> d[k] == c[if k < i then k else k + 1];
    forall l | l in d ensures l.v < n - 1 {
      var k :| 0 <= k < |d| && d[k] == l;
      assert c[if k < i then k else k + 1] in c;
    }
  }

  // No two learned clauses are the same.
  ghost predicate DistinctBags(s: Core, learned: seq<nat>)
  {
    forall c, d :: c in learned && d in learned && c != d && c < |s.clauses| && d < |s.clauses| ==>
      multiset(s.clauses[c]) != multiset(s.clauses[d])
  }

  ghost function BagsOfLearned(s: Core, learned: seq<nat>): set<Bag>
    requires forall i :: 0 <= i < |learned| ==> learned[i] < |s.clauses|
  {
    set i | 0 <= i < |learned| :: multiset(s.clauses[learned[i]])
  }

  lemma {:induction false} BagsCounted(s: Core, learned: seq<nat>)
    requires forall i :: 0 <= i < |learned| ==> learned[i] < |s.clauses|
    requires DistinctBags(s, learned) && forall i, j :: 0 <= i < j < |learned| ==> learned[i] != learned[j]
    ensures |BagsOfLearned(s, learned)| == |learned|
  {
    if learned != [] {
      var n := |learned| - 1;
      assert forall c :: c in learned[..n] ==> c in learned;
      BagsCounted(s, learned[..n]);
      OneBagMore(s, learned);
      hide BagsOfLearned, DistinctBags;
    }
  }

  lemma OneBagMore(s: Core, learned: seq<nat>)
    requires learned != [] && forall i :: 0 <= i < |learned| ==> learned[i] < |s.clauses|
    requires DistinctBags(s, learned) && forall i, j :: 0 <= i < j < |learned| ==> learned[i] != learned[j]
    ensures var n := |learned| - 1; var b := multiset(s.clauses[learned[n]]);
            b !in BagsOfLearned(s, learned[..n]) && BagsOfLearned(s, learned) == BagsOfLearned(s, learned[..n]) + {b}
  {
    var n := |learned| - 1;
    var rest, b := learned[..n], multiset(s.clauses[learned[n]]);
    forall i | 0 <= i < n ensures multiset(s.clauses[rest[i]]) != b {
      assert rest[i] == learned[i] && learned[i] in learned && learned[n] in learned;
    }
    hide DistinctBags;
    forall c | c in BagsOfLearned(s, learned) ensures c in BagsOfLearned(s, rest) + {b} {
      var i :| 0 <= i < |learned| && c == multiset(s.clauses[learned[i]]);
      assert i < n ==> rest[i] == learned[i];
    }
    forall c | c in BagsOfLearned(s, rest) ensures c in BagsOfLearned(s, learned) && c != b {
      var i :| 0 <= i < n && c == multiset(s.clauses[rest[i]]);
      assert rest[i] == learned[i];
    }
  }

  lemma LearnedFew(s: Core, learned: seq<nat>, base: nat, n: nat)
    requires LearnedOk(s, learned, base) && DistinctBags(s, learned) && DbOk(s.clauses, s.live, n)
    ensures |learned| <= Capacity(n)
  {
    forall i | 0 <= i < |learned| ensures learned[i] < |s.clauses| && multiset(s.clauses[learned[i]]) in AllBags(n) {
      assert LearnedAt(s, learned[i], base) && ClauseOk(s.clauses[learned[i]], n);
      var c := s.clauses[learned[i]];
      assert forall l :: l in c ==> l.v < n;
      BagIn(c, n);
    }
    hide AllBags, LearnedOk;
    assert forall i, j :: 0 <= i < j < |learned| ==> learned[i] != learned[j] by {
      LearnedApart(s, learned, base);
    }
    BagsCounted(s, learned);
    SubsetCard(BagsOfLearned(s, learned), AllBags(n));
  }

  lemma LearnedApart(s: Core, learned: seq<nat>, base: nat)
    requires LearnedOk(s, learned, base)
    ensures forall i, j :: 0 <= i < j < |learned| ==> learned[i] != learned[j]
    ensures forall c :: c in learned ==> c < |s.clauses| && c in s.live
  {
    assert forall i :: 0 <= i < |learned| ==> LearnedAt(s, learned[i], base);
  }

  // A clause learned from a conflict is none of those watched: they were propagated, so a clause false but for one
  // literal of the level would have bound that literal earlier.
  lemma LearnedNew(s0: Core, s1: Core, nbVars: nat, wl: Lists, wb: Lists, lit0: Lit, lvl: nat, c: Clause)
    requires Unified(s0, s1, lit0, lvl) && TrailOk(s0.model, s0.trail) && Sound(s1, nbVars, wl, wb, Elems(s0.trail), lvl)
    requires Learn.Asserting(s1, lvl, c) && |c| >= 2 && lvl >= 2
    ensures multiset(c) !in LiveBags(s1)
  {
    if multiset(c) in LiveBags(s1) {
      var e :| e in s1.live && e < |s1.clauses| && multiset(s1.clauses[e]) == multiset(c);
      SameMembers(s1.clauses[e], c);
      OneIsLower(s1, nbVars, lvl, c, s1.clauses[e]);
      var k: nat :| k < 2 && Level(s1.model, s1.clauses[e][k].v) < lvl;
      assert s1.clauses[e][k] in s1.clauses[e];
      WatchPropagated(s0, s1, nbVars, wl, wb, lit0, lvl, e, k);
    }
  }

  lemma SameMembers(d: Clause, c: Clause)
    requires multiset(d) == multiset(c)
    ensures |d| == |c| && forall l :: l in d <==> l in c
  {
    assert |multiset(d)| == |multiset(c)|;
    assert forall l :: l in d <==> l in multiset(d);
    assert forall l :: l in c <==> l in multiset(c);
  }

  // Of the two watched literals one is below the level of the conflict.
  lemma OneIsLower(s: Core, nbVars: nat, lvl: nat, c: Clause, d: Clause)
    requires Learn.Asserting(s, lvl, c) && |d| >= 2 && DistinctVars(d) && forall l :: l in d ==> l in c
    ensures AllFalse(s.model, d) && exists k: nat :: k < 2 && Level(s.model, d[k].v) < lvl
  {
    assert d[0] in d && d[1] in d && d[0].v != d[1].v;
    var i :| 0 <= i < |c| && c[i] == d[0];
    var j :| 0 <= j < |c| && c[j] == d[1];
    assert i != j;
    assert Level(s.model, d[if i == 0 then 1 else 0].v) < lvl;
  }

  lemma WatchPropagated(s0: Core, s1: Core, nbVars: nat, wl: Lists, wb: Lists, lit0: Lit, lvl: nat, e: nat, k: nat)
    requires Unified(s0, s1, lit0, lvl) && TrailOk(s0.model, s0.trail) && Sound(s1, nbVars, wl, wb, Elems(s0.trail), lvl)
    requires e in s1.live && e < |s1.clauses| && lvl >= 2 && k < 2 && k < |s1.clauses[e]|
    requires False(s1.model, s1.clauses[e][k]) && Level(s1.model, s1.clauses[e][k].v) < lvl
    ensures exists l :: l in s1.clauses[e] && True(s1.model, l)
  {
    var d := s1.clauses[e];
    SoundGuarded(s1, nbVars, wl, wb, Elems(s0.trail), lvl, e, k);
    SplitBelow(s0, s1, lit0, lvl, lvl - 1);
    hide Sound, Unified, TrailOk, Level, Guarded;
    NegationOnTrail(s1, d[k]);
    var r :| 0 <= r < |s1.trail| && s1.trail[r] == d[k].Neg();
    assert s1.trail[r].v == d[k].v && s1.trail[r] in Elems(s0.trail);
    GuardedTrue(s1.model, d, d[k], Elems(s0.trail));
  }

  lemma SoundGuarded(s: Core, nbVars: nat, wl: Lists, wb: Lists, done: set<Lit>, lvl: nat, e: nat, k: nat)
    requires Sound(s, nbVars, wl, wb, done, lvl) && e in s.live && e < |s.clauses| && k < 2 && k < |s.clauses[e]|
    ensures Guarded(s.model, s.clauses[e], s.clauses[e][k], done) && TrailOk(s.model, s.trail)
  {
    assert ClauseGuarded(s.model, s.clauses[e], done);
  }

  lemma NegationOnTrail(s: Core, l: Lit)
    requires TrailOk(s.model, s.trail) && False(s.model, l)
    ensures exists r :: 0 <= r < |s.trail| && s.trail[r] == l.Neg()
  {
    FalseInTrail(s.model, s.trail, l);
  }

  lemma GuardedTrue(m: Model, c: Clause, l: Lit, done: set<Lit>)
    requires Guarded(m, c, l, done) && l.Neg() in done
    ensures exists k :: k in c && True(m, k)
  {
  }

  // ----- and so many literals of level 1 -----

  ghost function TopVars(m: Model): set<nat> { set v | 0 <= v < |m| && Level(m, v) == 1 }

  lemma TopFew(m: Model)
    ensures |TopVars(m)| <= |m|
  {
    RangeCard(|m|);
    SubsetCard(TopVars(m), Range(|m|));
  }

  ghost function Range(n: nat): set<nat> { if n == 0 then {} else Range(n - 1) + {n - 1} }

  lemma {:induction false} RangeCard(n: nat)
    ensures |Range(n)| == n && forall v: nat :: v in Range(n) <==> v < n
  {
    if n > 0 {
      RangeCard(n - 1);
    }
  }

  // ----- the account -----

  // Open is 1 between a conflict and what is learned from it.
  ghost predicate Tally(s: Core, learned: seq<nat>, n: nat, t: Tab, open: nat)
  {
    DistinctBags(s, learned) && (learned == [] ==> t.deleted == 0)
    && t.conflicts <= t.units + |learned| + t.deleted + open && t.units <= |TopVars(s.model)|
    && Reductions(n, t)
  }

  // Each reduction waits for idxReduce * nbMax conflicts, and raises both factors.
  ghost predicate Reductions(n: nat, t: Tab)
  {
    t.deleted <= t.reductions * Capacity(n) && t.idxReduce >= t.reductions + 1
    && t.nbMax >= InitNbMaxClauses + IncrNbMaxClauses * t.reductions
    && (t.reductions > 0 ==> t.conflicts >= t.reductions * (InitNbMaxClauses + IncrNbMaxClauses * (t.reductions - 1)))
  }

  ghost function MaxReductions(n: nat): nat { Capacity(n) + n + 2 }

  ghost function MaxConflicts(n: nat): nat { n + Capacity(n) + MaxReductions(n) * Capacity(n) + 1 }

  // Reductions past this number would have taken more conflicts than there can have been.
  lemma ManyReductions(r: nat, k: nat, n: nat)
    requires r >= k + n + 3
    ensures r * (2000 + 300 * (r - 1)) > n + k + r * k + 1
  {
    MulMore(r + 1, 2000 + 300 * (r - 1), r);
    MulMore(k + n + 3, r + 1, r);
    MulMore(1, r, n);
    assert (k + n + 3) * r == k * r + n * r + 3 * r;
  }

  lemma MulMore(a: nat, b: nat, c: nat)
    requires a <= b
    ensures a * c <= b * c
  {
  }

  // The number of conflicts is bounded by the number of variables.
  lemma TallyBound(s: Core, learned: seq<nat>, base: nat, n: nat, t: Tab, open: nat)
    requires Tally(s, learned, n, t, open) && open <= 1 && LearnedOk(s, learned, base) && CoreOk(s, n)
    ensures t.conflicts <= MaxConflicts(n)
  {
    LearnedFew(s, learned, base, n);
    TopFew(s.model);
    hide AllBags;
    var r, k := t.reductions, Capacity(n);
    if r >= k + n + 3 {
      ManyReductions(r, k, n);
      assert false;
    }
    MulMore(r, MaxReductions(n), k);
  }

  lemma TallyStart(s: Core, n: nat)
    ensures Tally(s, [], n, Tab(0, 0, 0, 0, 1, InitNbMaxClauses), 0)
  {
  }

  lemma TallyConflict(s: Core, learned: seq<nat>, n: nat, t: Tab)
    requires Tally(s, learned, n, t, 0)
    ensures Tally(s, learned, n, t.(conflicts := t.conflicts + 1), 1)
  {
    hide DistinctBags, Capacity;
  }

  // Levels of bound variables stay.
  lemma TopMore(m: Model, m': Model)
    requires |m| == |m'| && forall v :: 0 <= v < |m| && Level(m, v) == 1 ==> Level(m', v) == 1
    ensures |TopVars(m)| <= |TopVars(m')|
  {
    SubsetCard(TopVars(m), TopVars(m'));
  }

  lemma TallyUnified(s0: Core, s1: Core, lit: Lit, lvl: nat, learned: seq<nat>, n: nat, t: Tab, open: nat)
    requires Unified(s0, s1, lit, lvl) && Tally(s0, learned, n, t, open)
    ensures Tally(s1, learned, n, t, open)
    ensures lvl == 1 ==> |TopVars(s1.model)| >= |TopVars(s0.model)| + 1
  {
    UnifiedSum(0, s0, s1, lit, lvl);
    SameClauses(s0, s1, lit, lvl);
    TopMore(s0.model, s1.model);
    if lvl == 1 {
      assert Level(s0.model, lit.v) == 0;
      SubsetCard(TopVars(s0.model) + {lit.v}, TopVars(s1.model));
    }
    hide Unified, Level, Reductions, TopVars;
  }

  lemma SameClauses(s0: Core, s1: Core, lit: Lit, lvl: nat)
    requires Unified(s0, s1, lit, lvl)
    ensures |s1.clauses| == |s0.clauses| && forall c :: 0 <= c < |s0.clauses| ==> multiset(s1.clauses[c]) == multiset(s0.clauses[c])
  {
    var p := Pushed(s0, lit, lvl, s0.reason[lit.v]);
    assert p.clauses == s0.clauses;
    assert forall c :: 0 <= c < |s0.clauses| ==> multiset(s1.clauses[c]) == multiset(p.clauses[c]);
  }

  lemma TallyCut(s: Core, s': Core, i: nat, lvl: nat, learned: seq<nat>, n: nat, t: Tab, open: nat)
    requires Cut(s, s', i, lvl) && lvl >= 1 && TrailOk(s.model, s.trail) && |s.reason| == |s.model|
    requires Tally(s, learned, n, t, open)
    ensures Tally(s', learned, n, t, open)
  {
    CutTop(s, s', i, lvl);
    hide Cut, TrailOk, Reductions, TopVars, Capacity;
  }

  lemma CutTop(s: Core, s': Core, i: nat, lvl: nat)
    requires Cut(s, s', i, lvl) && lvl >= 1 && TrailOk(s.model, s.trail) && |s.reason| == |s.model|
    ensures s'.clauses == s.clauses && |TopVars(s.model)| <= |TopVars(s'.model)|
  {
    CutLevels(s, s', i, lvl);
    TopMore(s.model, s'.model);
  }

  lemma TopMost(s: Core, s': Core, unit: Lit, learned: seq<nat>, n: nat, t: Tab)
    requires Unified(s, s', unit, 1) && Tally(s, learned, n, t, 1)
    ensures t.units + 1 <= |TopVars(s'.model)|
  {
    TallyUnified(s, s', unit, 1, learned, n, t, 1);
  }

  // A literal learned: it is one more at level 1.
  lemma TallyUnit(s: Core, s': Core, unit: Lit, learned: seq<nat>, n: nat, t: Tab)
    requires Unified(s, s', unit, 1) && Tally(s, learned, n, t, 1)
    ensures Tally(s', learned, n, t.(units := t.units + 1), 0)
  {
    hide Tally, Unified, TopVars;
    TallyUnified(s, s', unit, 1, learned, n, t, 1);
    TopMost(s, s', unit, learned, n, t);
    OneUnitMore(s', learned, n, t);
  }

  lemma OneUnitMore(s: Core, learned: seq<nat>, n: nat, t: Tab)
    requires Tally(s, learned, n, t, 1) && t.units + 1 <= |TopVars(s.model)|
    ensures Tally(s, learned, n, t.(units := t.units + 1), 0)
  {
    hide DistinctBags, Capacity, TopVars;
  }

  // A clause learned: it is one more.
  lemma TallyClause(s: Core, learned: seq<nat>, base: nat, n: nat, t: Tab, c: Clause, i: ClauseInfo)
    requires Tally(s, learned, n, t, 1) && LearnedOk(s, learned, base) && multiset(c) !in LiveBags(s)
    ensures Tally(WithClause(s, c, i), learned + [|s.clauses|], n, t, 0)
  {
    LearnedApart(s, learned, base);
    var s', more := WithClause(s, c, i), learned + [|s.clauses|];
    forall d, e | d in more && e in more && d != e && d < |s'.clauses| && e < |s'.clauses|
      ensures multiset(s'.clauses[d]) != multiset(s'.clauses[e])
    {
      assert d < |s.clauses| ==> d in learned && multiset(s.clauses[d]) in LiveBags(s);
      assert e < |s.clauses| ==> e in learned && multiset(s.clauses[e]) in LiveBags(s);
    }
  }

  lemma TallySame(s: Core, s': Core, learned: seq<nat>, n: nat, t: Tab, open: nat)
    requires Tally(s, learned, n, t, open) && s'.model == s.model && s'.clauses == s.clauses
    ensures Tally(s', learned, n, t, open)
  {
  }

  // The learned clause joins the account.
  lemma LearnedTally(s0: Core, s1: Core, nbVars: nat, wl: Lists, wb: Lists, lit0: Lit, lvl: nat, learned: seq<nat>, base: nat,
                     t: Tab, c: Clause, i: ClauseInfo)
    requires Unified(s0, s1, lit0, lvl) && TrailOk(s0.model, s0.trail) && Sound(s1, nbVars, wl, wb, Elems(s0.trail), lvl)
    requires Learn.Asserting(s1, lvl, c) && |c| >= 2 && Level(s1.model, c[1].v) >= 1
    requires Tally(s1, learned, nbVars, t, 1) && LearnedOk(s1, learned, base)
    ensures Tally(WithClause(s1, c, i), learned + [|s1.clauses|], nbVars, t, 0)
  {
    assert Level(s1.model, c[1].v) < lvl;
    hide Unified, TrailOk, Sound, Learn.Asserting, Level, Tally, LearnedOk, WithClause, LiveBags;
    LearnedNew(s0, s1, nbVars, wl, wb, lit0, lvl, c);
    TallyClause(s1, learned, base, nbVars, t, c, i);
  }

  lemma CutTally(s1: Core, s: Core, s': Core, s2: Core, i: nat, lvl: nat, learned: seq<nat>, n: nat, t: Tab, open: nat)
    requires Cut(s, s', i, lvl) && lvl >= 1 && TrailOk(s1.model, s1.trail) && |s1.reason| == |s1.model|
    requires s.model == s1.model && s.trail == s1.trail && s.reason == s1.reason
    requires Tally(s, learned, n, t, open) && s2.model == s'.model && s2.clauses == s'.clauses
    ensures Tally(s2, learned, n, t, open)
  {
    hide Cut, TrailOk, Tally;
    TallyCut(s, s', i, lvl, learned, n, t, open);
    TallySame(s', s2, learned, n, t, open);
  }

  // Whether learned clauses are to be deleted.
  ghost predicate Due(t: Tab) { t.conflicts >= t.idxReduce * t.nbMax }

  // The counters after a reduction of the learned clauses in this order: the next is put off if many are good.
  ghost function AfterReduction(t: Tab, info: seq<ClauseInfo>, order: seq<nat>): Tab
    requires t.nbMax > 0
  {
    PutOff(t, |Doomed(info, order, |order| / 2)|, Postponed(info, order))
  }

  ghost function PutOff(t: Tab, gone: nat, postponed: nat): Tab
    requires t.nbMax > 0
  {
    t.(deleted := t.deleted + gone, reductions := t.reductions + 1, idxReduce := t.conflicts / t.nbMax + 1,
       nbMax := t.nbMax + postponed + IncrNbMaxClauses)
  }

  ghost function Postponed(info: seq<ClauseInfo>, order: seq<nat>): nat
  {
    if order != [] && order[|order| / 2] < |info| && info[order[|order| / 2]].lbd <= 3 then IncrPostponeNbMax else 0
  }

  lemma PostponedIs(info: seq<ClauseInfo>, order: seq<nat>)
    requires order != [] && order[|order| / 2] < |info|
    ensures Postponed(info, order) == if info[order[|order| / 2]].lbd <= 3 then IncrPostponeNbMax else 0
  {
  }

  // A reduction: due after enough conflicts, it deletes no more than there is, and the next is due later.
  lemma TallyReduce(s: Core, s': Core, learned: seq<nat>, learned': seq<nat>, order: seq<nat>, base: nat, n: nat, t: Tab)
    requires Tally(s, learned, n, t, 0) && LearnedOk(s, learned, base) && CoreOk(s, n) && Due(t) && t.nbMax > 0
    requires multiset(order) == multiset(learned) && Pruned(s, s', order, learned')
    ensures Tally(s', learned', n, AfterReduction(t, s.info, order), 0)
  {
    hide CoreOk, LearnedOk, Reductions, Capacity, Pruned, Doomed, Postponed, DistinctBags, TopVars, Due;
    PrunedFacts(s, s', learned, learned', order);
    ReductionTaken(s, learned, base, n, t, |Doomed(s.info, order, |order| / 2)|, Postponed(s.info, order));
    DistinctFewer(s, s', learned, learned');
  }

  lemma ReductionTaken(s: Core, learned: seq<nat>, base: nat, n: nat, t: Tab, gone: nat, postponed: nat)
    requires Tally(s, learned, n, t, 0) && LearnedOk(s, learned, base) && CoreOk(s, n) && Due(t) && gone <= |learned| && t.nbMax > 0
    ensures Reductions(n, PutOff(t, gone, postponed))
  {
    LearnedFew(s, learned, base, n);
    hide DistinctBags, CoreOk, LearnedOk, Reductions, TopVars, Capacity, PutOff;
    ReductionsNext(n, t, gone, postponed);
  }

  // A reduction in some order by block distance, between the states s and s'.
  ghost predicate Cleaned(s: Core, s': Core, learned: seq<nat>, learned': seq<nat>, t: Tab, t': Tab)
  {
    t.nbMax > 0
    && exists order: seq<nat> ::
         multiset(order) == multiset(learned) && SortedByLbd(s.info, order) && Pruned(s, s', order, learned')
         && t' == AfterReduction(t, s.info, order)
  }

  lemma DistinctFewer(s: Core, s': Core, learned: seq<nat>, learned': seq<nat>)
    requires DistinctBags(s, learned) && s'.clauses == s.clauses && forall c :: c in learned' ==> c in learned
    ensures DistinctBags(s', learned')
  {
  }

  lemma PrunedFacts(s: Core, s': Core, learned: seq<nat>, learned': seq<nat>, order: seq<nat>)
    requires multiset(order) == multiset(learned) && Pruned(s, s', order, learned')
    ensures |learned| == |learned'| + |Doomed(s.info, order, |order| / 2)| && (learned' == [] ==> learned == [])
    ensures s'.model == s.model && s'.clauses == s.clauses && forall c :: c in learned' ==> c in learned
  {
    DoomedFew(s.info, order, |order| / 2);
    hide Doomed;
    assert |multiset(order)| == |multiset(learned)|;
    forall c | c in learned' ensures c in learned {
      assert c in multiset(learned') && c in multiset(order) && c in multiset(learned);
    }
  }

  // The index of learned that a reduction reads is in range unless two thousand learned literals came first.
  lemma DueNonempty(s: Core, learned: seq<nat>, n: nat, t: Tab)
    requires Tally(s, learned, n, t, 0) && Due(t) && |s.model| == n && learned == []
    ensures n >= InitNbMaxClauses
  {
    TopFew(s.model);
    MulMore(1, t.idxReduce, t.nbMax);
    hide DistinctBags, TopVars, Capacity;
  }

  lemma Bounds(s: Core, learned: seq<nat>, n: nat, t: Tab, open: nat)
    requires Tally(s, learned, n, t, open)
    ensures t.nbMax > 0 && t.idxReduce > 0
  {
  }

  lemma ReductionsNext(n: nat, t: Tab, gone: nat, postponed: nat)
    requires Reductions(n, t) && gone <= Capacity(n) && t.conflicts >= t.idxReduce * t.nbMax && t.nbMax > 0
    ensures Reductions(n, PutOff(t, gone, postponed))
  {
    hide Capacity;
    ReductionDue(t.conflicts, t.idxReduce, t.nbMax, t.reductions);
    assert (t.reductions + 1) * Capacity(n) == t.reductions * Capacity(n) + Capacity(n);
  }

  lemma ReductionDue(conflicts: nat, idx: nat, max: nat, r: nat)
    requires conflicts >= idx * max && max >= 2000 + 300 * r && idx >= r + 1
    ensures conflicts / max >= r + 1
    ensures conflicts >= (r + 1) * (2000 + 300 * r)
  {
    MulMore(r + 1, idx, max);
    MulMore(2000 + 300 * r, max, r + 1);
    assert conflicts >= (r + 1) * max;
    QuotientAtLeast(conflicts, max, r + 1);
  }

  lemma QuotientAtLeast(a: nat, b: nat, k: nat)
    requires b > 0 && a >= k * b
    ensures a / b >= k
  {
    var q := a / b;
    assert a == q * b + a % b && (q + 1) * b == q * b + b;
    LessFactor(k, q + 1, b);
  }

  lemma LessFactor(a: nat, b: nat, c: nat)
    requires a * c < b * c
    ensures a < b
  {
  }
}
