// The steps of the solver's methods, as lemmas about snapshots of its state.
module Steps {
  import opened Logic
  import opened UnitProp
  import opened Bindings
  import opened Watches
  import opened State
  import opened Learn
  import opened Backjump
  import opened Certificate
  import opened Progress
  import Q = Queue

  // Every free variable but `pending` has an entry in the decision queue.
  ghost predicate Queued(m: Model, entries: multiset<int>, pending: int)
  {
    forall v :: 0 <= v < |m| && m[v] == 0 && v != pending ==> v in entries
  }

  // A problem after simplification: clauses of two literals or more over distinct variables, none of them
  // bound by the unit literals.
  ghost predicate ProblemOk(nbVars: nat, problem: seq<Clause>, units: seq<Lit>)
  {
    (forall i :: 0 <= i < |problem| ==> ClauseOk(problem[i], nbVars))
    && (forall i :: 0 <= i < |units| ==> units[i].v < nbVars) 
    && (forall u :: u in units ==> u.Neg() !in units)
    && forall i, l :: 0 <= i < |problem| && l in problem[i] ==> l.v !in Vars(units)
  }

  lemma LearnedShape(s: Core, nbVars: nat, lvl: nat, c: Clause)
    requires CoreOk(s, nbVars) && Asserting(s, lvl, c) && |c| >= 2
    ensures ClauseOk(c, nbVars) && TrailOk(s.model, s.trail) && |s.info| == |s.clauses| && |s.clauses| !in s.live
    ensures Level(s.model, c[1].v) >= 1
  {
    assert forall i :: 0 <= i < |c| ==> c[i] in c;
  }

  // A literal bound no higher than a level below lvl was on the trail before the pending literal.
  lemma SplitBelow(s0: Core, s1: Core, lit0: Lit, lvl: nat, b: nat)
    requires Unified(s0, s1, lit0, lvl) && TrailOk(s0.model, s0.trail) && b < lvl
    ensures forall i :: 0 <= i < |s1.trail| && Level(s1.model, s1.trail[i].v) <= b ==> s1.trail[i] in Elems(s0.trail)
  {
    UnifiedSum(0, s0, s1, lit0, lvl);
    var p := Pushed(s0, lit0, lvl, s0.reason[lit0.v]);
    forall i | 0 <= i < |s1.trail| && Level(s1.model, s1.trail[i].v) <= b ensures s1.trail[i] in Elems(s0.trail) {
      if i < |p.trail| {
        assert s1.trail[i] == p.trail[i];
      }
    }
  }

  // The backjump with the learned clause already added makes the same progress as one without it.
  lemma BackjumpAdded(s0: Core, s1: Core, s2: Core, s3: Core, lit0: Lit, lvl: nat, i: nat, b: nat)
    requires Unified(s0, s1, lit0, lvl) && Contiguous(s0, lvl)
    requires s2.model == s1.model && s2.trail == s1.trail && s2.reason == s1.reason
    requires Cut(s2, s3, i, b) && TrailOk(s1.model, s1.trail) && |s1.reason| == |s1.model| && 1 <= b < lvl
    ensures Reached(|s0.model|, s0, lvl) < Reached(|s0.model|, s3, b) && Contiguous(s3, b)
  {
    var t := s3.(clauses := s1.clauses, live := s1.live, info := s1.info);
    assert Cut(s1, t, i, b);
    BackjumpProgress(s0, s1, t, lit0, lvl, i, b);
  }

  lemma SplitDone(s0: Core, s1: Core, lit0: Lit, lvl: nat, c: Clause, nbVars: nat)
    requires Unified(s0, s1, lit0, lvl) && TrailOk(s0.model, s0.trail) && Asserting(s1, lvl, c) && |c| >= 2
    ensures forall i :: 0 <= i < |s1.trail| && Level(s1.model, s1.trail[i].v) <= Level(s1.model, c[1].v) ==>
              s1.trail[i] in Elems(s0.trail)
  {
    SplitBelow(s0, s1, lit0, lvl, Level(s1.model, c[1].v));
  }

  lemma SplitTop(s0: Core, s1: Core, lit0: Lit, lvl: nat)
    requires Unified(s0, s1, lit0, lvl) && TrailOk(s0.model, s0.trail) && lvl >= 2
    ensures forall i :: 0 <= i < |s1.trail| && Level(s1.model, s1.trail[i].v) <= 1 ==> s1.trail[i] in Elems(s0.trail)
  {
    SplitBelow(s0, s1, lit0, lvl, 1);
  }

  lemma CutBooks(s: Core, s': Core, nbVars: nat, problem: seq<Clause>, units: seq<Lit>, cert: seq<Clause>,
                 learned: seq<nat>, i: nat, lvl: nat)
    requires CoreOk(s, nbVars) && Cut(s, s', i, lvl) && lvl >= 1
    requires Books(problem, units, cert, s) && LearnedOk(s, learned, |problem|)
    ensures Books(problem, units, cert, s') && LearnedOk(s', learned, |problem|) && |s'.clauses| == |s.clauses|
    ensures TrailOk(s'.model, s'.trail)
  {
    BooksCut(problem, units, cert, s, s', i, lvl);
    LearnedKept(s, s', learned, |problem|);
    CutTrail(s, s', i, lvl);
  }

  lemma CutFacts(s1: Core, s2: Core, s3: Core, nbVars: nat, problem: seq<Clause>, units: seq<Lit>, cert: seq<Clause>,
                 learned: seq<nat>, i: nat, lvl: nat)
    requires CoreOk(s1, nbVars) && s2.model == s1.model && s2.trail == s1.trail && s2.reason == s1.reason
    requires Cut(s2, s3, i, lvl) && lvl >= 1
    requires Books(problem, units, cert, s2) && LearnedOk(s2, learned, |problem|)
    ensures Books(problem, units, cert, s3) && LearnedOk(s3, learned, |problem|) && |s3.clauses| == |s2.clauses|
    ensures TrailOk(s3.model, s3.trail) && s3.clauses == s2.clauses && s3.live == s2.live
    ensures TrailOk(s2.model, s2.trail) && |s2.reason| == |s2.model|
  {
    BooksCut(problem, units, cert, s2, s3, i, lvl);
    LearnedKept(s2, s3, learned, |problem|);
    CutTrail(s2, s3, i, lvl);
  }

  lemma AssertedKeeps(s: Core, nbVars: nat, lit: Lit, id: nat, learned: seq<nat>, base: nat, lvl: nat)
    requires lit.v < |s.reason| && id < |s.info| && LearnedOk(s, learned, base)
    ensures LearnedOk(Asserted(s, lit, id), learned, base)
    ensures Contiguous(s, lvl) ==> Contiguous(Asserted(s, lit, id), lvl)
    ensures Reached(nbVars, Asserted(s, lit, id), lvl) == Reached(nbVars, s, lvl)
  {
    LearnedKept(s, Asserted(s, lit, id), learned, base);
  }

  lemma QueuedPending(m: Model, entries: multiset<int>, v: int)
    requires Queued(m, entries, -1)
    ensures Queued(m, entries, v)
  {
  }

  lemma UnitFree(s1: Core, s2: Core, nbVars: nat, lvl: nat, unit: Lit, i: nat)
    requires CoreOk(s1, nbVars) && Asserting(s1, lvl, [unit]) && lvl >= 2 && Cut(s1, s2, i, 1)
    ensures unit.v < nbVars && |s2.model| == |s2.reason| == nbVars && s2.model[unit.v] == 0
  {
    assert unit in [unit];
    FalseInTrail(s1.model, s1.trail, unit);
    CutBinding(s1, s2, i, 1, unit);
    CutBinding(s1, s2, i, 1, unit.Neg());
  }

  lemma SoundIs(s: Core, nbVars: nat, wl: Lists, wb: Lists, done: set<Lit>, lvl: nat)
    ensures Sound(s, nbVars, wl, wb, done, lvl) <==> SoundFor(s, nbVars, wl, wb, done, lvl, s.live)
  {
  }

  lemma SoundHigher(s: Core, nbVars: nat, wl: Lists, wb: Lists, done: set<Lit>, lvl: nat, lvl': nat)
    requires Sound(s, nbVars, wl, wb, done, lvl) && lvl <= lvl'
    ensures Sound(s, nbVars, wl, wb, done, lvl')
  {
  }

  lemma TopRefuted(s: Core, nbVars: nat, wl: Lists, wb: Lists, done: set<Lit>, problem: seq<Clause>, units: seq<Lit>,
                   cert: seq<Clause>, c: nat)
    requires Sound(s, nbVars, wl, wb, done, 1) && Books(problem, units, cert, s) && ConflictAt(s, c, 1)
    ensures Rup(Bags(Formula(problem, units) + cert), multiset{})
  {
    TopConflict(Bags(Formula(problem, units) + cert), s, nbVars, c);
  }

  lemma ReadyFacts(s: Core, nbVars: nat, wl: Lists, wb: Lists, lit: Lit, lvl: nat)
    requires Ready(s, nbVars, wl, wb, lit, lvl)
    ensures CoreOk(s, nbVars) && lit.v < nbVars && s.model[lit.v] == 0 && lvl >= 1 && LevelsUpTo(s.model, s.trail, lvl)
    ensures |s.model| == |s.reason| == nbVars && TrailOk(s.model, s.trail)
  {
  }

  lemma SoundTrail(s: Core, nbVars: nat, wl: Lists, wb: Lists, done: set<Lit>, lvl: nat)
    requires Sound(s, nbVars, wl, wb, done, lvl)
    ensures CoreOk(s, nbVars) && TrailOk(s.model, s.trail) && |s.reason| == |s.model| == nbVars
    ensures LevelsUpTo(s.model, s.trail, lvl)
  {
  }

  lemma UnifiedDone(s0: Core, s1: Core, s2: Core, lit: Lit, lvl: nat, learned: seq<nat>, base: nat)
    requires lit.v < |s0.model| && lit.v < |s0.reason| && s0.model[lit.v] == 0 && lvl >= 1
    requires s1 == Pushed(s0, lit, lvl, s0.reason[lit.v]) && Grown(s1, s2, lvl)
    requires Unreasoned(s1.model, s1.reason, -1) && |s2.model| == |s1.model| == |s2.reason|
    requires LearnedOk(s0, learned, base)
    ensures Unified(s0, s2, lit, lvl) && Unreasoned(s2.model, s2.reason, -1) && LearnedOk(s2, learned, base)
    ensures |s2.clauses| == |s0.clauses|
    ensures forall entries :: Queued(s0.model, entries, lit.v) ==> Queued(s2.model, entries, -1)
  {
    LearnedKept(s0, s2, learned, base);
    forall entries | Queued(s0.model, entries, lit.v) ensures Queued(s2.model, entries, -1) {
      forall v | 0 <= v < |s2.model| && s2.model[v] == 0 ensures v in entries {
        assert s1.model[v] == 0 && v != lit.v;
      }
    }
  }

  lemma UnwatchFacts(s: Core, nbVars: nat, wl: Lists, wb: Lists, done: set<Lit>, lvl: nat, c: nat)
    requires Sound(s, nbVars, wl, wb, done, lvl) && c in s.live && c < |s.clauses| && |s.clauses[c]| >= 3
    ensures s.clauses[c][0].Neg() != s.clauses[c][1].Neg()
    ensures WatchedIn(wl, s.clauses[c][0].Neg(), c) && WatchedIn(wl, s.clauses[c][1].Neg(), c)
  {
    assert Listed(s.clauses, wl, c);
    assert ClauseOk(s.clauses[c], nbVars);
  }

  lemma UnwatchSound(s: Core, nbVars: nat, wl: Lists, wb: Lists, done: set<Lit>, lvl: nat, c: nat, i: nat, j: nat)
    requires Sound(s, nbVars, wl, wb, done, lvl) && c < |s.clauses| && |s.clauses[c]| >= 3
    requires c < |s.info| && !s.info[c].locked && s.clauses[c][0].Neg() != s.clauses[c][1].Neg()
    requires s.clauses[c][0].Neg() in wl && i < |wl[s.clauses[c][0].Neg()]| && wl[s.clauses[c][0].Neg()][i].clause == c
    requires s.clauses[c][1].Neg() in wl && j < |wl[s.clauses[c][1].Neg()]| && wl[s.clauses[c][1].Neg()][j].clause == c
    ensures var p, q := s.clauses[c][0].Neg(), s.clauses[c][1].Neg();
            Sound(s.(live := s.live - {c}), nbVars, wl[p := RemoveAt(wl[p], i)][q := RemoveAt(wl[q], j)], wb, done, lvl)
    ensures forall p :: 0 <= p < |s.trail| && s.trail[p].v < |s.reason| ==> s.reason[s.trail[p].v] != Some(c)
  {
    var p, q := s.clauses[c][0].Neg(), s.clauses[c][1].Neg();
    var wl' := wl[p := RemoveAt(wl[p], i)][q := RemoveAt(wl[q], j)];
    Unwatch(s.clauses, s.live, wl, c, p, i, q, j);
    Delete(s, nbVars, wl, wl', wb, done, lvl, c);
  }

  lemma LearnedPermuted(s: Core, learned: seq<nat>, order: seq<nat>, base: nat)
    requires LearnedOk(s, learned, base) && multiset(order) == multiset(learned)
    ensures LearnedOk(s, order, base)
  {
    forall i | 0 <= i < |order| ensures LearnedAt(s, order[i], base) {
      assert order[i] in multiset(learned);
      var j :| 0 <= j < |learned| && learned[j] == order[i];
      assert LearnedAt(s, learned[j], base);
    }
    forall i, j | 0 <= i < j < |order| ensures order[i] != order[j] {
      if order[i] == order[j] {
        TwiceCounts(order, i, j);
        DistinctCounts(learned, order[i]);
      }
    }
  }

  lemma TwiceCounts(s: seq<nat>, i: nat, j: nat)
    requires i < j < |s| && s[i] == s[j]
    ensures multiset(s)[s[i]] >= 2
  {
    assert s == s[..i] + [s[i]] + s[i + 1..j] + [s[j]] + s[j + 1..];
  }

  lemma {:induction false} DistinctCounts(s: seq<nat>, x: nat)
    requires forall i, j :: 0 <= i < j < |s| ==> s[i] != s[j]
    ensures multiset(s)[x] <= 1
  {
    if s != [] {
      var p, y := s[..|s| - 1], s[|s| - 1];
      DistinctCounts(p, x);
      assert s == p + [y];
      assert y !in p;
    }
  }

  // The sign each variable had is kept when it is undone.
  ghost predicate Saved(undone: seq<Lit>, p0: seq<bool>, p: seq<bool>)
  {
    |p| == |p0| && (forall k :: 0 <= k < |undone| && undone[k].v < |p| ==> p[undone[k].v] == undone[k].pos)
    && forall v :: 0 <= v < |p| && v !in Vars(undone) ==> p[v] == p0[v]
  }

  lemma SavedNone(p: seq<bool>)
    ensures Saved([], p, p)
  {
  }

  lemma SavedNext(s: Core, nbVars: nat, i: nat, j: nat, p0: seq<bool>, p: seq<bool>)
    requires CoreOk(s, nbVars) && i <= j < |s.trail| && |p0| == nbVars && Saved(s.trail[i..j], p0, p)
    ensures s.trail[j].v < |p| && Saved(s.trail[i..j + 1], p0, p[s.trail[j].v := s.trail[j].pos])
  {
    TrailOf(s, nbVars);
    SavedMore(s.model, s.trail, i, j, p0, p);
  }

  lemma SavedMore(m: Model, trail: seq<Lit>, i: nat, j: nat, p0: seq<bool>, p: seq<bool>)
    requires TrailOk(m, trail) && i <= j < |trail| && trail[j].v < |p| && Saved(trail[i..j], p0, p)
    ensures Saved(trail[i..j + 1], p0, p[trail[j].v := trail[j].pos])
  {
    var undone, more, l := trail[i..j], trail[i..j + 1], trail[j];
    assert more == undone + [l];
    forall k | 0 <= k < |undone| && undone[k].v == l.v ensures undone[k].pos == l.pos {
      assert undone[k] == trail[i + k];
      assert True(m, trail[i + k]) && True(m, trail[j]);
    }
    forall v | v in Vars(undone) || v == l.v ensures v in Vars(more) {
      if v == l.v {
        assert more[|undone|] == l;
      } else {
        var u :| u in undone && u.v == v;
        assert u in more;
      }
    }
  }

  // Each free variable below v once, after n entries for variable 0.
  ghost predicate Rebuilt(m: Model, n: nat, entries: multiset<int>, v: nat)
  {
    forall u :: entries[u] == (if u == 0 then n else 0) + (if 0 <= u < v && u < |m| && m[u] == 0 then 1 else 0)
  }

  lemma {:induction false} ZerosCount(m: Model, n: nat, zeros: seq<int>)
    requires zeros == seq(n, _ => 0)
    ensures Rebuilt(m, n, multiset(zeros), 0)
  {
    if n > 0 {
      var fewer: seq<int> := seq(n - 1, _ => 0);
      ZerosCount(m, n - 1, fewer);
      assert zeros == fewer + [0];
    } else {
      assert zeros == [];
    }
  }

  // Only clauses learned, of block distance above 2, not locked and no reason of a binding are gone.
  ghost predicate Reduced(s0: Core, s: Core, base: nat)
  {
    s == s0.(live := s.live) && s.live <= s0.live
    && (forall c :: c in s0.live - s.live ==> base <= c < |s.info| && s.info[c].lbd > 2 && !s.info[c].locked)
    && forall p :: 0 <= p < |s.trail| && s.trail[p].v < |s.reason| && s.reason[s.trail[p].v].Some? ==>
         s.reason[s.trail[p].v].value !in s0.live - s.live
  }

  lemma ReducedNone(s: Core, base: nat)
    ensures Reduced(s, s, base)
  {
  }

  lemma ReducedNext(s0: Core, s: Core, base: nat, c: nat)
    requires Reduced(s0, s, base) && base <= c < |s.info| && s.info[c].lbd > 2 && !s.info[c].locked
    requires forall p :: 0 <= p < |s.trail| && s.trail[p].v < |s.reason| ==> s.reason[s.trail[p].v] != Some(c)
    ensures Reduced(s0, s.(live := s.live - {c}), base)
  {
  }

  lemma ReducedLater(s0: Core, s: Core, base: nat, c: nat)
    requires Reduced(s0, s, base) && base <= c < |s.info| && s.info[c].lbd > 2 && !s.info[c].locked
    ensures (forall p :: 0 <= p < |s.trail| && s.trail[p].v < |s.reason| ==> s.reason[s.trail[p].v] != Some(c))
            ==> Reduced(s0, s.(live := s.live - {c}), base)
  {
    if forall p :: 0 <= p < |s.trail| && s.trail[p].v < |s.reason| ==> s.reason[s.trail[p].v] != Some(c) {
      ReducedNext(s0, s, base, c);
    }
  }

  // The clauses that a reduction deletes, among the first k: those of block distance above 2 that are not locked.
  ghost function Doomed(info: seq<ClauseInfo>, order: seq<nat>, k: nat): seq<nat>
    requires k <= |order|
  {
    if k == 0 then []
    else Doomed(info, order, k - 1) + if Spared(info, order[k - 1]) then [] else [order[k - 1]]
  }

  ghost predicate Spared(info: seq<ClauseInfo>, c: nat) { c < |info| && (info[c].lbd <= 2 || info[c].locked) }

  lemma {:induction false} DoomedFew(info: seq<ClauseInfo>, order: seq<nat>, k: nat)
    requires k <= |order|
    ensures |Doomed(info, order, k)| <= k
  {
    if k > 0 {
      DoomedFew(info, order, k - 1);
    }
  }

  // After looking at the first i entries: the list, up to the shrunken end n, and the deleted ones are all there were.
  ghost predicate Pruning(info: seq<ClauseInfo>, order: seq<nat>, learned: seq<nat>, n: nat, i: nat)
  {
    i <= n <= |learned| == |order| && n == |order| - |Doomed(info, order, i)|
    && learned[i..n] == order[i..n]
    && multiset(learned[..n]) + multiset(Doomed(info, order, i)) == multiset(order)
  }

  lemma PruningFits(info: seq<ClauseInfo>, order: seq<nat>, learned: seq<nat>, n: nat, i: nat)
    requires Pruning(info, order, learned, n, i)
    ensures i <= n <= |learned| == |order|
  {
  }

  lemma PruningNone(info: seq<ClauseInfo>, order: seq<nat>)
    ensures Pruning(info, order, order, |order|, 0)
  {
    assert order[..|order|] == order;
  }

  lemma PruningNext(info: seq<ClauseInfo>, order: seq<nat>, learned: seq<nat>, n: nat, i: nat)
    requires Pruning(info, order, learned, n, i) && i < |order| / 2
    ensures i < n && learned[i] == order[i]
    ensures Doomed(info, order, i + 1) == Doomed(info, order, i) + if Spared(info, order[i]) then [] else [order[i]]
    ensures Spared(info, order[i]) ==> Pruning(info, order, learned, n, i + 1)
    ensures !Spared(info, order[i]) ==> Pruning(info, order, learned[i := learned[n - 1]], n - 1, i + 1)
  {
    DoomedFew(info, order, i);
    var gone, c := Doomed(info, order, i), order[i];
    Shifted(learned, order, n, i, learned[n - 1]);
    if Spared(info, c) {
      assert Doomed(info, order, i + 1) == gone;
    } else {
      assert Doomed(info, order, i + 1) == gone + [c];
      hide Doomed, Spared;
      Overwritten(learned, n, i);
      assert multiset(gone + [c]) == multiset(gone) + multiset{c};
    }
  }

  lemma Shifted(a: seq<nat>, b: seq<nat>, n: nat, i: nat, x: nat)
    requires i + 1 < n <= |a| == |b| && a[i..n] == b[i..n]
    ensures a[i] == b[i] && a[i + 1..n] == b[i + 1..n] && a[i := x][i + 1..n - 1] == b[i + 1..n - 1]
  {
    assert forall k :: i <= k < n ==> a[k] == a[i..n][k - i] == b[i..n][k - i] == b[k];
  }

  lemma Overwritten(s: seq<nat>, n: nat, i: nat)
    requires i < n <= |s|
    ensures multiset(s[i := s[n - 1]][..n - 1]) + multiset{s[i]} == multiset(s[..n])
  {
    var t := s[i := s[n - 1]];
    if i == n - 1 {
      assert t[..n - 1] == s[..n - 1] && s[..n] == s[..n - 1] + [s[i]];
    } else {
      assert t[..n - 1] == s[..i] + [s[n - 1]] + s[i + 1..n - 1];
      assert s[..n] == s[..i] + [s[i]] + s[i + 1..n - 1] + [s[n - 1]];
    }
  }

  // What is left of the learned clauses once the first half of their order has been gone through.
  ghost predicate Pruned(s0: Core, s: Core, order: seq<nat>, learned: seq<nat>)
  {
    var gone := Doomed(s0.info, order, |order| / 2);
    s == s0.(live := s.live) && multiset(learned) + multiset(gone) == multiset(order)
    && |learned| + |gone| == |order| && forall c :: c in s.live <==> c in s0.live && c !in gone
  }

  lemma PrunedDone(s0: Core, s: Core, order: seq<nat>, learned: seq<nat>, n: nat)
    requires s == s0.(live := s.live) && Pruning(s.info, order, learned, n, |order| / 2)
    requires forall c :: c in s.live <==> c in s0.live && c !in Doomed(s.info, order, |order| / 2)
    ensures Pruned(s0, s, order, learned[..n])
  {
    hide Doomed;
  }

  // Sorted for a reduction: the greatest block distances first. Ties are broken by clause activities, which are left open.
  ghost predicate SortedByLbd(info: seq<ClauseInfo>, order: seq<nat>)
  {
    (forall i :: 0 <= i < |order| ==> order[i] < |info|)
    && forall i, j :: 0 <= i < j < |order| ==> LbdOf(info, order[i]) >= LbdOf(info, order[j])
  }

  ghost function LbdOf(info: seq<ClauseInfo>, c: nat): nat { if c < |info| then info[c].lbd else 0 }

  lemma NoneSorted(info: seq<ClauseInfo>)
    ensures SortedByLbd(info, [])
  {
  }

  lemma LbdsOf(info: seq<ClauseInfo>, order: seq<nat>)
    requires SortedByLbd(info, order)
    ensures forall i :: 0 <= i < |order| ==> order[i] < |info|
  {
  }

  lemma InsertSortedLbd(info: seq<ClauseInfo>, r: seq<nat>, c: nat, k: nat)
    requires SortedByLbd(info, r) && k <= |r| && c < |info|
    requires forall j :: 0 <= j < k ==> LbdOf(info, r[j]) >= LbdOf(info, c)
    requires k < |r| ==> LbdOf(info, r[k]) < LbdOf(info, c)
    ensures SortedByLbd(info, r[..k] + [c] + r[k..])
    ensures multiset(r[..k] + [c] + r[k..]) == multiset(r) + multiset{c}
  {
    hide LbdOf;
    InsertedBag(r, c, k);
  }

  lemma InsertedBag(r: seq<nat>, c: nat, k: nat)
    requires k <= |r|
    ensures multiset(r[..k] + [c] + r[k..]) == multiset(r) + multiset{c}
  {
    assert r == r[..k] + r[k..];
  }

  lemma LearnedFacts(s: Core, learned: seq<nat>, base: nat, i: nat)
    requires LearnedOk(s, learned, base) && i < |learned|
    ensures base <= learned[i] < |s.clauses| && learned[i] < |s.info| && learned[i] in s.live
    ensures s.info[learned[i]].lbd <= |s.clauses[learned[i]]|
  {
    assert LearnedAt(s, learned[i], base);
  }

  // The entry behind the shrinking end takes the place of the deleted one.
  lemma LearnedDeleted(s: Core, learned: seq<nat>, n: nat, base: nat, i: nat)
    requires n < |learned| && i <= n && LearnedOk(s, learned[..n + 1], base)
    ensures LearnedOk(s.(live := s.live - {learned[i]}), learned[i := learned[n]][..n], base)
  {
    var now, was := learned[i := learned[n]][..n], learned[..n + 1];
    assert forall k :: 0 <= k < |now| ==> now[k] == was[if k == i then n else k];
    forall k | 0 <= k < |now| ensures LearnedAt(s.(live := s.live - {learned[i]}), now[k], base) {
      var k' := if k == i then n else k;
      assert LearnedAt(s, was[k'], base) && was[k'] != was[i];
    }
  }

  lemma EntryOf(q: Q.Queue, v: nat)
    requires q.Valid() && q.Contains(v)
    ensures v in q.Entries()
  {
    q.ContainsEntry(v);
  }

  lemma CleanupFacts(s: Core, nbVars: nat, wl: Lists, wb: Lists, done: set<Lit>, top: nat, guarded: set<nat>)
    requires SoundFor(s, nbVars, wl, wb, done, top, guarded)
    ensures CoreOk(s, nbVars) && TrailOk(s.model, s.trail) && forall i :: 0 <= i < |s.trail| ==> s.trail[i].v < nbVars
  {
  }

  lemma SplitHere(s: Core, i: nat, lvl: nat)
    requires TrailOk(s.model, s.trail) && i <= |s.trail|
    requires forall k :: 0 <= k < i ==> Level(s.model, s.trail[k].v) <= lvl
    requires i < |s.trail| ==> Level(s.model, s.trail[i].v) > lvl
    ensures SplitsAt(s, i, lvl)
  {
  }

  lemma UndoStep(s: Core, s': Core, nbVars: nat, i: nat, j: nat)
    requires CoreOk(s, nbVars) && Undone(s, s', i, j) && j < |s.trail|
    requires forall k :: i <= k < |s.trail| ==> Level(s.model, s.trail[k].v) != 1
    ensures s.trail[j].v < nbVars && |s'.model| == |s'.reason| == nbVars
    ensures s'.reason[s.trail[j].v].Some? ==> s'.reason[s.trail[j].v].value < |s'.info|
    ensures Undone(s, Freed(s', s.trail[j].v), i, j + 1)
    ensures s'.reason[s.trail[j].v] == None ==> s'.reason[s.trail[j].v := None] == s'.reason
  {
    var v := s.trail[j].v;
    assert s.trail[j].v !in Vars(s.trail[i..j]);
    assert ReasonOk(s.model, s.trail, j, s.reason[v], s.clauses);
    UndoNext(s, s', i, j);
  }

  lemma UndoAnyTrail(s: Core, s': Core, i: nat, t: seq<Lit>)
    requires Undone(s, s', i, |s.trail|)
    ensures Undone(s, s'.(trail := t), i, |s.trail|)
  {
  }

  lemma CutDone(s: Core, s': Core, nbVars: nat, wl: Lists, wb: Lists, done: set<Lit>, top: nat, lvl: nat,
                guarded: set<nat>, i: nat)
    requires SoundFor(s, nbVars, wl, wb, done, top, guarded) && Unreasoned(s.model, s.reason, -1)
    requires SplitsAt(s, i, lvl) && Undone(s, s', i, |s.trail|) && s'.trail == s.trail[..i]
    requires forall i :: 0 <= i < |s.trail| && Level(s.model, s.trail[i].v) <= lvl ==> s.trail[i] in done
    ensures Cut(s, s', |s'.trail|, lvl) && SoundFor(s', nbVars, wl, wb, Elems(s'.trail), lvl, guarded)
    ensures Unreasoned(s'.model, s'.reason, -1)
  {
    CutSound(s, s', i, nbVars, wl, wb, done, top, lvl, guarded);
    CutUnreasoned(s, s', i, lvl);
  }

  lemma CutQueued(s: Core, s': Core, i: nat, lvl: nat, before: multiset<int>, after: multiset<int>)
    requires Cut(s, s', i, lvl) && |s.reason| == |s.model| && Queued(s.model, before, -1) && before <= after
    requires forall k :: i <= k < |s.trail| ==> s.trail[k].v in after
    ensures Queued(s'.model, after, -1)
  {
    forall v | 0 <= v < |s'.model| && s'.model[v] == 0 ensures v in after {
      VarsFrom(s.trail, i, v);
      assert v !in Vars(s.trail[i..|s.trail|]) ==> s.model[v] == 0;
    }
  }

  lemma InTrailStays(a: Core, b: Core, l: Lit, lvl: nat)
    requires Grown(a, b, lvl) && l in a.trail
    ensures l in b.trail
  {
  }

  lemma VisitedNone(m: Model, db: Db, ws: seq<Watcher>)
    ensures Visited(m, db, ws, 0)
  {
  }

  lemma KeepView(wl: seq<Watcher>, i: nat, j: nat, w: Watcher)
    requires j <= i < |wl|
    ensures (wl[..j] + wl[i..])[j := w] == wl[j := w][..j + 1] + wl[j := w][i + 1..]
    ensures wl[j := w][i + 1..] == wl[i + 1..]
  {
  }

  lemma StaysTrue(a: Core, b: Core, l: Lit, lvl: nat)
    requires Grown(a, b, lvl) && True(a.model, l)
    ensures True(b.model, l) && Level(b.model, l.v) == Level(a.model, l.v)
  {
  }

  lemma BinOfSound(s: Core, nbVars: nat, wl: Lists, wb: Lists, done: set<Lit>, lvl: nat, p: Lit, j: nat)
    requires Sound(s, nbVars, wl, wb, done, lvl) && p in wb && j < |wb[p]| && True(s.model, p)
    ensures var w := wb[p][j];
            && w.clause in s.live && w.clause < |s.clauses| && |s.clauses[w.clause]| == 2
            && w.other in s.clauses[w.clause] && w.other.v < nbVars && p.Neg() in s.clauses[w.clause]
            && (forall l :: l in s.clauses[w.clause] ==> l == w.other || l == p.Neg())
            && (forall l :: l in s.clauses[w.clause] && l != w.other ==> False(s.model, l))
  {
    BinFacts(s.clauses, s.live, nbVars, wb, p, j);
  }

  lemma BinConflict(s: Core, w: Watcher, p: Lit, lvl: nat)
    requires w.clause in s.live && w.clause < |s.clauses| && p.Neg() in s.clauses[w.clause]
    requires forall l :: l in s.clauses[w.clause] && l != w.other ==> False(s.model, l)
    requires False(s.model, w.other) && Level(s.model, p.v) == lvl
    ensures ConflictAt(s, w.clause, lvl)
  {
  }

  // What was propagated before position ptr is still propagated when a conflict stops at p.
  lemma SoundEarlier(a: Core, b: Core, c: Core, nbVars: nat, wl: Lists, wb: Lists, done: set<Lit>,
                     ptr: nat, p: nat, lvl: nat)
    requires Sound(c, nbVars, wl, wb, done, lvl) && Grown(a, b, lvl) && ptr <= |a.trail| && ptr <= p <= |b.trail|
    requires done == Elems(b.trail[..p])
    ensures Sound(c, nbVars, wl, wb, Elems(a.trail[..ptr]), lvl)
  {
    assert a.trail[..ptr] == b.trail[..ptr];
    assert forall l :: l in b.trail[..ptr] ==> l in b.trail[..p];
    SoundLess(c, nbVars, wl, wb, done, Elems(a.trail[..ptr]), lvl);
  }

  lemma RestFalse(s: Core, c: nat, p: Lit)
    requires c < |s.clauses| && |s.clauses[c]| >= 2 && s.clauses[c][1] == p.Neg() && True(s.model, p)
    requires forall i :: 2 <= i < |s.clauses[c]| ==> False(s.model, s.clauses[c][i])
    ensures forall l :: l in s.clauses[c] && l != s.clauses[c][0] ==> False(s.model, l)
  {
  }

  lemma WatcherOfSound(s: Core, nbVars: nat, wl: Lists, wb: Lists, done: set<Lit>, lvl: nat, p: Lit, j: nat)
    requires Sound(s, nbVars, wl, wb, done, lvl) && p in wl && j < |wl[p]|
    ensures var w := wl[p][j];
            && w.clause in s.live && w.clause < |s.clauses| && ClauseOk(s.clauses[w.clause], nbVars)
            && |s.clauses[w.clause]| >= 3 && w.other in s.clauses[w.clause] && w.other.v < nbVars
            && (s.clauses[w.clause][0] == p.Neg() || s.clauses[w.clause][1] == p.Neg())
  {
    WatcherFacts(s.clauses, s.live, nbVars, wl, p, j);
  }

  lemma VisitedSame(m: Model, db: Db, ws: seq<Watcher>, ws': seq<Watcher>, n: nat)
    requires Visited(m, db, ws, n) && n <= |ws'| && ws'[..n] == ws[..n]
    ensures Visited(m, db, ws', n)
  {
    forall i | 0 <= i < n ensures ws'[i] == ws[i] {
      assert ws'[..n][i] == ws[..n][i];
    }
  }

  lemma SoundTrans(a: Core, b: Core, c: Core, nbVars: nat, wl: Lists, wb: Lists, done: set<Lit>, lvl: nat)
    requires Grown(a, b, lvl) && Grown(b, c, lvl) && Sound(b, nbVars, wl, wb, done, lvl)
    ensures Grown(a, c, lvl)
  {
  }

  lemma ConflictFound(s: Core, c: nat, p: Lit, lvl: nat)
    requires c in s.live && c < |s.clauses| && |s.clauses[c]| >= 2
    requires False(s.model, s.clauses[c][0]) && s.clauses[c][1] == p.Neg()
    requires forall i :: 2 <= i < |s.clauses[c]| ==> False(s.model, s.clauses[c][i])
    requires True(s.model, p) && Level(s.model, p.v) == lvl
    ensures ConflictAt(s, c, lvl)
  {
    assert p.Neg() in s.clauses[c];
  }

  lemma FirstStays(a: Core, b: Core, c: nat, l: Lit, lvl: nat)
    requires Grown(a, b, lvl) && c < |a.clauses| && l in a.clauses[c]
    ensures c < |b.clauses| && l in b.clauses[c]
  {
    assert multiset(a.clauses[c]) == multiset(b.clauses[c]);
    assert l in multiset(b.clauses[c]);
  }

  lemma PrefixStays(a: Core, c: Core, p: nat, lvl: nat)
    requires Grown(a, c, lvl) && p < |a.trail|
    ensures p < |c.trail| && Elems(c.trail[..p + 1]) == Elems(a.trail[..p]) + {a.trail[p]}
  {
    assert c.trail[..p + 1] == a.trail[..p] + [a.trail[p]];
  }

  lemma SuffixLevels(a: Core, b: Core, ptr: nat, lvl: nat)
    requires Grown(a, b, lvl) && ptr <= |a.trail|
    requires forall i :: ptr <= i < |a.trail| ==> True(a.model, a.trail[i]) && Level(a.model, a.trail[i].v) == lvl
    ensures forall i :: ptr <= i < |b.trail| ==> Level(b.model, b.trail[i].v) == lvl
  {
  }

  // ----- loading a problem -----

  function NoWatchers(nbVars: nat): Lists { map p: Lit | p in AllLits(nbVars) :: [] }

  lemma StartSound(s: Core, nbVars: nat, wl: Lists, wb: Lists)
    requires s.model == seq(nbVars, _ => 0) && s.trail == [] && s.reason == seq(nbVars, _ => None)
    requires s.clauses == [] && s.info == [] && s.live == {}
    requires wl == wb == NoWatchers(nbVars)
    ensures Sound(s, nbVars, wl, wb, Elems(s.trail), 1)
  {
    forall p: Lit | p.v < nbVars ensures p in AllLits(nbVars) {
      assert p == Lit(p.v, p.pos);
    }
  }

  // A unit literal given before is bound already; it only gets one more place on the trail.
  lemma UnitAgain(s: Core, nbVars: nat, wl: Lists, wb: Lists, u: Lit)
    requires Sound(s, nbVars, wl, wb, Elems(s.trail), 1) && s.live == {} && u in s.trail && s.reason == seq(nbVars, _ => None)
    ensures var s' := s.(trail := s.trail + [u]); Sound(s', nbVars, wl, wb, Elems(s'.trail), 1)
  {
    var t := s.trail + [u];
    hide LongOk, BinOk, Total;
    assert True(s.model, u);
    forall i | 0 <= i < |t| ensures True(s.model, t[i]) && Level(s.model, t[i].v) == 1 {
      assert i < |s.trail| ==> t[i] == s.trail[i];
    }
  }

  // The next unit literal can be bound at level 1: no clause is there yet.
  lemma UnitStart(s: Core, nbVars: nat, wl: Lists, wb: Lists, problem: seq<Clause>, units: seq<Lit>, i: nat)
    requires ProblemOk(nbVars, problem, units) && i < |units| && s.trail == units[..i] && s.live == {}
    requires s.reason == seq(nbVars, _ => None) && Sound(s, nbVars, wl, wb, Elems(s.trail), 1) && |s.model| == nbVars
    ensures units[i].v < nbVars && units[..i + 1] == s.trail + [units[i]]
    ensures s.reason[units[i].v := None] == s.reason
    ensures var s' := Pushed(s, units[i], 1, None); Sound(s', nbVars, wl, wb, Elems(s'.trail), 1)
  {
    var u := units[i];
    if s.model[u.v] != 0 {
      var own := Lit(u.v, s.model[u.v] > 0);
      assert True(s.model, own) && own in units && u in units;
      assert own == u || own == u.Neg();
      UnitAgain(s, nbVars, wl, wb, u);
      assert s.model[u.v := SignedLevel(u, 1)] == s.model by {
        assert Level(s.model, u.v) == 1;
      }
      return;
    }
    ReadyUnit(s, nbVars, wl, wb, u);
    Unify(s, nbVars, wl, wb, u, 1);
    assert Pushed(s, u, 1, None) == Pushed(s, u, 1, s.reason[u.v]);
  }

  ghost predicate LoadedSoFar(s: Core, problem: seq<Clause>, n: nat)
  {
    n <= |problem| && s.clauses == problem[..n] && forall i :: i in s.live <==> 0 <= i < n
  }

  lemma LoadNone(s: Core, nbVars: nat, problem: seq<Clause>, units: seq<Lit>)
    requires s.clauses == [] && s.live == {}
    ensures LoadedSoFar(s, problem, 0)
  {
  }

  lemma LoadGuarded(s: Core, s': Core, nbVars: nat, wl: Lists, wb: Lists, units: seq<Lit>, c: Clause, i: nat)
    requires SoundFor(s', nbVars, wl, wb, Elems(s'.trail), 1, s.live) && s'.trail == units && s'.live == s.live + {i}
    requires i < |s'.clauses| && s'.clauses[i] == c && |c| >= 2 && forall l :: l in c ==> l.v !in Vars(units)
    ensures Sound(s', nbVars, wl, wb, Elems(s'.trail), 1)
  {
    hide CoreOk, LongOk, BinOk, LevelsUpTo, Total;
    forall k: nat | k < 2 ensures c[k].Neg() !in units {
      assert c[k] in c;
    }
    forall e | e in s'.live && e < |s'.clauses| ensures ClauseGuarded(s'.model, s'.clauses[e], Elems(s'.trail)) {
      assert e in s.live || e == i;
    }
  }

  // The next problem clause: both its watched literals are free.
  lemma LoadOne(s: Core, nbVars: nat, wl: Lists, wb: Lists, problem: seq<Clause>, units: seq<Lit>, i: nat)
    requires ProblemOk(nbVars, problem, units) && i < |problem| && |s.clauses| == i && LoadedSoFar(s, problem, i)
    requires Sound(s, nbVars, wl, wb, Elems(s.trail), 1) && s.trail == units
    ensures var c := problem[i];
            && |c| >= 2 && c[0].v != c[1].v
            && c[0].Neg() in wl && c[1].Neg() in wl && c[0].Neg() in wb && c[1].Neg() in wb
            && var s' := WithClause(s, c, ClauseInfo(false, false, 0));
               && LoadedSoFar(s', problem, i + 1)
               && (|c| == 2 ==> Sound(s', nbVars, wl, Added(wb, i, c[0], c[1]), Elems(s.trail), 1))
               && (|c| >= 3 ==> Sound(s', nbVars, Added(wl, i, c[0], c[1]), wb, Elems(s.trail), 1))
  {
    hide Sound, SoundFor, Added, Vars;
    var c := problem[i];
    var s' := WithClause(s, c, ClauseInfo(false, false, 0));
    assert ClauseOk(c, nbVars);
    AddClause(s, nbVars, wl, wb, Elems(s.trail), 1, c, ClauseInfo(false, false, 0));
    if |c| == 2 {
      LoadGuarded(s, s', nbVars, wl, Added(wb, i, c[0], c[1]), units, c, i);
    } else {
      LoadGuarded(s, s', nbVars, Added(wl, i, c[0], c[1]), wb, units, c, i);
    }
  }

  lemma LoadAll(s: Core, nbVars: nat, wl: Lists, wb: Lists, problem: seq<Clause>, units: seq<Lit>, entries: multiset<int>)
    requires LoadedSoFar(s, problem, |problem|) && Sound(s, nbVars, wl, wb, Elems(s.trail), 1) && s.trail == units
    requires s.reason == seq(nbVars, _ => None) && |s.clauses| == |problem| && |s.model| == nbVars
    requires forall v :: 0 <= v < nbVars ==> v in entries
    ensures Books(problem, units, [], s) && LearnedOk(s, [], |problem|) && Unreasoned(s.model, s.reason, -1)
    ensures Queued(s.model, entries, -1)
  {
    var f := Formula(problem, units) + [];
    assert problem[..|problem|] == problem;
    LoadedKnown(s, problem, units, f);
    LoadedUnits(s, nbVars, wl, wb);
    hide Sound, Known, Bags;
    assert CertOk(Formula(problem, units), []);
  }

  lemma LoadedUnits(s: Core, nbVars: nat, wl: Lists, wb: Lists)
    requires Sound(s, nbVars, wl, wb, Elems(s.trail), 1)
    ensures forall u :: u in s.trail ==> Level(s.model, u.v) == 1
  {
    assert forall u :: u in s.trail ==> True(s.model, u);
  }

  lemma LoadedKnown(s: Core, problem: seq<Clause>, units: seq<Lit>, f: seq<Clause>)
    requires s.clauses == problem && s.trail == units && f == Formula(problem, units) + []
    ensures Known(Bags(f), s)
  {
    forall c | 0 <= c < |s.clauses| ensures multiset(s.clauses[c]) in Bags(f) {
      assert f[c] == s.clauses[c];
      BagsOf(f, c);
    }
    forall p | 0 <= p < |s.trail| ensures multiset{s.trail[p]} in Bags(f) {
      assert f[|problem| + p] == [units[p]];
      BagsOf(f, |problem| + p);
      assert multiset([units[p]]) == multiset{s.trail[p]};
    }
  }

  // ----- the search loop -----

  lemma PendingFacts(s: Core, nbVars: nat, wl: Lists, wb: Lists, lit: Lit, lvl: nat)
    requires Ready(s, nbVars, wl, wb, lit, lvl)
    ensures TrailOk(s.model, s.trail) && |s.reason| == |s.model| == nbVars && lvl >= 1
    ensures Reached(nbVars, s, lvl) <= Limit(nbVars)
  {
    ReachedBounded(nbVars, s, lvl);
  }

  lemma SameBindings(s: Core, s': Core, nbVars: nat, lvl: nat)
    requires s'.model == s.model && s'.trail == s.trail
    ensures Reached(nbVars, s', lvl) == Reached(nbVars, s, lvl)
    ensures Contiguous(s, lvl) ==> Contiguous(s', lvl)
  {
  }

  lemma TwoContiguous(s: Core)
    ensures Contiguous(s, 2)
  {
  }

  lemma KnownBags(problem: seq<Clause>, units: seq<Lit>, cert: seq<Clause>, s: Core)
    requires Books(problem, units, cert, s)
    ensures Known(Bags(Formula(problem, units) + cert), s)
  {
  }

  // A learned literal is false at the conflict level.
  lemma UnitLevel(s: Core, nbVars: nat, lvl: nat, unit: Lit)
    requires CoreOk(s, nbVars) && Asserting(s, lvl, [unit])
    ensures unit.v < nbVars && False(s.model, unit) && Level(s.model, unit.v) == lvl && lvl >= 1
  {
    assert unit in [unit];
  }
}
