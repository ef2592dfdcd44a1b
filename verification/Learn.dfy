// First-UIP learning, solver/learn.go, on a fixed snapshot of the solver: what the traversal of the trail
// keeps, and why the literals it collects are a reverse-unit-propagation consequence.
module Learn {
  import opened Logic
  import opened UnitProp
  import opened Bindings
  import opened Watches
  import opened State

  // The trail positions below n whose variable is marked.
  ghost function MarkedBelow(t: seq<Lit>, marked: seq<bool>, n: int): set<int>
  {
    set p | 0 <= p < n && p < |t| && t[p].v < |marked| && marked[t[p].v]
  }

  // Literal l, false in s, has been taken into account: as a variable of level lvl still to be resolved
  // or resolved, or as a literal of the clause being built. At level 1, where the trail may repeat a literal,
  // a variable may also have been passed before it was read.
  ghost predicate Taken(s: Core, lvl: nat, met: seq<bool>, metLvl: seq<bool>, l: Lit)
  {
    l.v < |met| && l.v < |metLvl| && met[l.v] && (Level(s.model, l.v) == lvl != 1 ==> metLvl[l.v])
  }

  // The literal at trail position p was resolved: its reason is covered.
  ghost predicate Resolved(s: Core, lvl: nat, met: seq<bool>, metLvl: seq<bool>, p: nat)
    requires p < |s.trail|
  {
    s.trail[p].v < |s.reason|
    && match s.reason[s.trail[p].v]
       case None => false
       case Some(c) => c < |s.clauses| && forall l :: l in s.clauses[c] && l != s.trail[p] ==> Taken(s, lvl, met, metLvl, l)
  }

  ghost predicate Collected(s: Core, lvl: nat, met: seq<bool>, lits: seq<Lit>)
  {
    |lits| >= 1
    && (forall l :: l in lits[1..] ==> False(s.model, l) && Level(s.model, l.v) < lvl && l.v < |met| && met[l.v])
    && DistinctVars(lits[1..])
    && (forall v :: 0 <= v < |met| && met[v] && Level(s.model, v) < lvl ==> v in Vars(lits[1..]))
  }

  ghost predicate Marks(s: Core, lvl: nat, met: seq<bool>, metLvl: seq<bool>, ptr: int)
  {
    |met| == |metLvl| == |s.model|
    && (forall v :: 0 <= v < |met| && metLvl[v] ==> met[v] && Level(s.model, v) == lvl)
    && (forall p :: 0 <= p <= ptr && p < |s.trail| && s.trail[p].v < |met| && met[s.trail[p].v] ==>
          (Level(s.model, s.trail[p].v) == lvl != 1 ==> metLvl[s.trail[p].v]))
  }

  // The traversal stands at trail position ptr: the conflict and every resolved reason are covered. At level 1
  // the trail may repeat a literal and hold facts without a reason, and nothing is claimed of the reasons.
  ghost predicate Walk(s: Core, confl: Clause, lvl: nat, met: seq<bool>, metLvl: seq<bool>, lits: seq<Lit>, ptr: int)
  {
    -1 <= ptr < |s.trail| && Marks(s, lvl, met, metLvl, ptr) && Collected(s, lvl, met, lits)
    && (forall l :: l in confl ==> Taken(s, lvl, met, metLvl, l))
    && (lvl >= 2 ==> AllResolved(s, lvl, met, metLvl, ptr))
  }

  ghost predicate AllResolved(s: Core, lvl: nat, met: seq<bool>, metLvl: seq<bool>, ptr: int)
    requires ptr >= -1
  {
    forall p :: ptr < p < |s.trail| && s.trail[p].v < |metLvl| && metLvl[s.trail[p].v] ==> Resolved(s, lvl, met, metLvl, p)
  }

  // Marks only grow, and they only grow by false literals of level lvl at most.
  ghost predicate MoreMarks(met: seq<bool>, metLvl: seq<bool>, met': seq<bool>, metLvl': seq<bool>)
  {
    |met'| == |met| && |metLvl'| == |metLvl|
    && (forall v :: 0 <= v < |met| && met[v] ==> met'[v])
    && (forall v :: 0 <= v < |metLvl| && v < |met| && met[v] ==> metLvl'[v] == metLvl[v])
  }

  lemma TakenMono(s: Core, lvl: nat, met: seq<bool>, metLvl: seq<bool>, met': seq<bool>, metLvl': seq<bool>, l: Lit)
    requires Taken(s, lvl, met, metLvl, l) && MoreMarks(met, metLvl, met', metLvl')
    ensures Taken(s, lvl, met', metLvl', l)
  {
  }

  lemma CollectLit(s: Core, lvl: nat, met: seq<bool>, lits: seq<Lit>, l: Lit)
    requires Collected(s, lvl, met, lits) && l.v < |met| && !met[l.v]
    ensures Level(s.model, l.v) == lvl ==> Collected(s, lvl, met[l.v := true], lits)
    ensures False(s.model, l) && Level(s.model, l.v) < lvl ==> Collected(s, lvl, met[l.v := true], lits + [l])
  {
    assert (lits + [l])[1..] == lits[1..] + [l];
    assert Vars(lits[1..] + [l]) == Vars(lits[1..]) + {l.v};
  }

  // Taking the false literal l, not met before, into account: a variable of level lvl is to be resolved,
  // any other literal goes to the clause.
  lemma TakeTop(s: Core, lvl: nat, met: seq<bool>, metLvl: seq<bool>, lits: seq<Lit>, ptr: int, l: Lit)
    requires Marks(s, lvl, met, metLvl, ptr) && Collected(s, lvl, met, lits)
    requires l.v < |met| && !met[l.v] && Level(s.model, l.v) == lvl
    ensures var met', metLvl' := met[l.v := true], metLvl[l.v := true];
            && MoreMarks(met, metLvl, met', metLvl') && Taken(s, lvl, met', metLvl', l)
            && Marks(s, lvl, met', metLvl', ptr) && Collected(s, lvl, met', lits)
    ensures !metLvl[l.v]
  {
    CollectLit(s, lvl, met, lits, l);
  }

  lemma TakeLow(s: Core, lvl: nat, met: seq<bool>, metLvl: seq<bool>, lits: seq<Lit>, ptr: int, l: Lit)
    requires Marks(s, lvl, met, metLvl, ptr) && Collected(s, lvl, met, lits)
    requires l.v < |met| && !met[l.v] && False(s.model, l) && Level(s.model, l.v) < lvl
    ensures var met' := met[l.v := true];
            && MoreMarks(met, metLvl, met', metLvl) && Taken(s, lvl, met', metLvl, l)
            && Marks(s, lvl, met', metLvl, ptr) && Collected(s, lvl, met', lits + [l])
  {
    CollectLit(s, lvl, met, lits, l);
  }

  // Literal l lies in clause c, which forces trail position p: it is a false literal from earlier on the trail.
  lemma EarlierFalse(s: Core, p: nat, c: nat, l: Lit)
    requires Bound(s.model, s.trail, s.reason, s.clauses) && p < |s.trail|
    requires s.trail[p].v < |s.reason| && s.reason[s.trail[p].v] == Some(c)
    requires c < |s.clauses| && l in s.clauses[c] && l != s.trail[p]
    ensures False(s.model, l) && Level(s.model, l.v) <= Level(s.model, s.trail[p].v)
    ensures exists r :: 0 <= r < p && s.trail[r] == l.Neg()
  {
    assert ReasonOk(s.model, s.trail, p, s.reason[s.trail[p].v], s.clauses);
    var r :| 0 <= r < p && s.trail[..p][r] == l.Neg();
    FalseInTrail(s.model, s.trail, l);
  }

  // A marked literal of level lvl without a reason, when another one is left below it, is a top-level fact.
  lemma NoReasonAtTop(s: Core, lvl: nat, metLvl: seq<bool>, p: nat, q: nat)
    requires Bound(s.model, s.trail, s.reason, s.clauses) && q < p < |s.trail|
    requires s.trail[p].v < |s.reason| && s.reason[s.trail[p].v] == None
    requires Level(s.model, s.trail[p].v) == lvl && Level(s.model, s.trail[q].v) == lvl
    ensures lvl == 1
  {
    assert ReasonOk(s.model, s.trail, p, s.reason[s.trail[p].v], s.clauses);
    assert s.trail[..p][q] == s.trail[q];
  }

  // ----- replaying the trail -----

  // The clauses the checker may use: all those of the arena, and a unit clause for each top-level fact.
  ghost predicate Known(f: set<Bag>, s: Core)
  {
    (forall c :: 0 <= c < |s.clauses| ==> multiset(s.clauses[c]) in f)
    && forall p :: 0 <= p < |s.trail| && s.trail[p].v < |s.reason| && s.reason[s.trail[p].v] == None ==>
         (Level(s.model, s.trail[p].v) == 1 ==> multiset{s.trail[p]} in f)
  }

  // The traversal is over: the literal at position u is the only marked one that was not resolved.
  ghost predicate Finished(s: Core, confl: Clause, lvl: nat, met: seq<bool>, metLvl: seq<bool>, lits: seq<Lit>, u: nat)
  {
    u < |s.trail| && |met| == |metLvl| == |s.model| && Collected(s, lvl, met, lits)
    && lits[0] == s.trail[u].Neg() && s.trail[u].v < |metLvl| && metLvl[s.trail[u].v]
    && (forall v :: 0 <= v < |met| && metLvl[v] ==> met[v] && Level(s.model, v) == lvl)
    && (forall l :: l in confl ==> False(s.model, l) && Taken(s, lvl, met, metLvl, l))
    && (lvl >= 2 ==> forall p :: 0 <= p < |s.trail| && s.trail[p].v < |metLvl| && metLvl[s.trail[p].v] && p != u ==>
          Resolved(s, lvl, met, metLvl, p))
  }

  // Local minimisation may drop l: every literal of its reason was met.
  ghost predicate Redundant(s: Core, met: seq<bool>, l: Lit)
  {
    l.v < |s.reason| && s.reason[l.v].Some? && s.reason[l.v].value < |s.clauses|
    && forall k :: k in s.clauses[s.reason[l.v].value] ==> k.v < |met| && met[k.v]
  }

  // m keeps the asserting literal and, of the others, exactly those that are not redundant.
  ghost predicate Minimised(s: Core, met: seq<bool>, lits: seq<Lit>, m: Clause)
  {
    |lits| >= 1 && |m| >= 1 && m[0] == lits[0] && forall l :: l in m[1..] <==> l in lits[1..] && !Redundant(s, met, l)
  }

  ghost predicate Needed(s: Core, metLvl: seq<bool>, lits: seq<Lit>, q: nat)
    requires q < |s.trail| && |lits| >= 1
  {
    (s.trail[q].v < |metLvl| && metLvl[s.trail[q].v]) || s.trail[q].Neg() in lits[1..]
  }

  // A false literal that was taken into account has its negation among the needed trail literals.
  lemma TakenNeeded(s: Core, lvl: nat, met: seq<bool>, metLvl: seq<bool>, lits: seq<Lit>, l: Lit, r: nat)
    requires Collected(s, lvl, met, lits) && Taken(s, lvl, met, metLvl, l) && False(s.model, l)
    requires Level(s.model, l.v) <= lvl && lvl >= 2 && r < |s.trail| && s.trail[r] == l.Neg()
    ensures Needed(s, metLvl, lits, r)
  {
    if Level(s.model, l.v) < lvl {
      var k :| k in lits[1..] && k.v == l.v;
      assert False(s.model, k) && k == l;
    }
  }

  lemma ReasonStep(f: set<Bag>, s: Core, nbVars: nat, t: set<Lit>, q: nat, c: nat)
    requires CoreOk(s, nbVars) && q < |s.trail| && s.trail[q].v < |s.reason| && s.reason[s.trail[q].v] == Some(c)
    requires c < |s.clauses|
    requires forall l :: l in s.clauses[c] && l != s.trail[q] ==> l.Neg() in t
    ensures UnitStep(multiset(s.clauses[c]), t, s.trail[q])
  {
    assert ReasonOk(s.model, s.trail, q, s.reason[s.trail[q].v], s.clauses);
    assert ClauseOk(s.clauses[c], nbVars);
    DistinctOnce(s.clauses[c], s.trail[q]);
  }

  lemma {:induction false} DistinctOnce(c: Clause, l: Lit)
    requires !Repeats(c)
    ensures multiset(c)[l] <= 1
  {
    if c != [] {
      var p, x := c[..|c| - 1], c[|c| - 1];
      assert c == p + [x];
      assert forall i :: 0 <= i < |p| ==> p[i] == c[i];
      DistinctOnce(p, l);
      assert x == l ==> l !in p;
    }
  }

  // Negating the minimised clause and propagating replays the needed part of the trail, in trail order.
  lemma {:induction false} Replay(f: set<Bag>, s: Core, nbVars: nat, confl: Clause, lvl: nat, met: seq<bool>,
                                  metLvl: seq<bool>, lits: seq<Lit>, u: nat, m: Clause, n: nat)
    returns (steps: seq<Lit>)
    requires CoreOk(s, nbVars) && LevelsUpTo(s.model, s.trail, lvl) && Known(f, s)
    requires Finished(s, confl, lvl, met, metLvl, lits, u) && Minimised(s, met, lits, m) && n <= |s.trail| && lvl >= 2
    ensures Derives(f, Negations(multiset(m)), steps)
    ensures forall q :: 0 <= q < n && Needed(s, metLvl, lits, q) ==> s.trail[q] in Negations(multiset(m)) + Elems(steps)
  {
    if n == 0 {
      return [];
    }
    steps := Replay(f, s, nbVars, confl, lvl, met, metLvl, lits, u, m, n - 1);
    var t := Negations(multiset(m)) + Elems(steps);
    var q := n - 1;
    if Needed(s, metLvl, lits, q) && s.trail[q] !in t {
      ReplayOne(f, s, nbVars, confl, lvl, met, metLvl, lits, u, m, q, t);
      var c :| c in f && UnitStep(c, t, s.trail[q]);
      DerivesSnoc(f, Negations(multiset(m)), steps, c, s.trail[q]);
      steps := steps + [s.trail[q]];
    }
  }

  lemma ReplayOne(f: set<Bag>, s: Core, nbVars: nat, confl: Clause, lvl: nat, met: seq<bool>, metLvl: seq<bool>,
                  lits: seq<Lit>, u: nat, m: Clause, q: nat, t: set<Lit>)
    requires CoreOk(s, nbVars) && LevelsUpTo(s.model, s.trail, lvl) && Known(f, s)
    requires Finished(s, confl, lvl, met, metLvl, lits, u) && Minimised(s, met, lits, m) && lvl >= 2
    requires q < |s.trail| && Needed(s, metLvl, lits, q) && Negations(multiset(m)) <= t && s.trail[q] !in t
    requires forall r :: 0 <= r < q && Needed(s, metLvl, lits, r) ==> s.trail[r] in t
    ensures exists c :: c in f && UnitStep(c, t, s.trail[q])
  {
    var l := s.trail[q];
    assert True(s.model, l);
    assert l.Neg() !in m by {
      assert l.Neg() in m ==> l.Neg().Neg() in Negations(multiset(m));
    }
    assert q != u;
    if l.Neg() in lits[1..] {
      assert Redundant(s, met, l.Neg()) && Level(s.model, l.v) < lvl;
    } else {
      assert Resolved(s, lvl, met, metLvl, q);
    }
    var c := s.reason[l.v].value;
    assert c < |s.clauses|;
    forall k | k in s.clauses[c] && k != l ensures k.Neg() in t {
      EarlierFalse(s, q, c, k);
      var r :| 0 <= r < q && s.trail[r] == k.Neg();
      assert Taken(s, lvl, met, metLvl, k);
      TakenNeeded(s, lvl, met, metLvl, lits, k, r);
    }
    ReasonStep(f, s, nbVars, t, q, c);
  }

  // The learned clause, after minimisation, is accepted by reverse unit propagation.
  lemma LearnedRup(f: set<Bag>, s: Core, nbVars: nat, confl: nat, lvl: nat, met: seq<bool>, metLvl: seq<bool>,
                   lits: seq<Lit>, u: nat, m: Clause)
    requires CoreOk(s, nbVars) && LevelsUpTo(s.model, s.trail, lvl) && Known(f, s) && confl < |s.clauses|
    requires Finished(s, s.clauses[confl], lvl, met, metLvl, lits, u) && Minimised(s, met, lits, m) && lvl >= 2
    ensures Rup(f, multiset(m))
  {
    var steps := Replay(f, s, nbVars, s.clauses[confl], lvl, met, metLvl, lits, u, m, |s.trail|);
    var t := Negations(multiset(m)) + Elems(steps);
    forall l | l in multiset(s.clauses[confl]) ensures l.Neg() in t {
      FalseInTrail(s.model, s.trail, l);
      var r :| 0 <= r < |s.trail| && s.trail[r] == l.Neg();
      TakenNeeded(s, lvl, met, metLvl, lits, l, r);
    }
    assert Refutes(f, Negations(multiset(m)), steps);
  }

  // ----- the result -----

  ghost predicate SortedByLevel(m: Model, c: Clause)
  {
    forall i, j :: 0 <= i < j < |c| ==> Level(m, c[i].v) >= Level(m, c[j].v)
  }

  // An asserting clause: false under the bindings, its first literal alone at level lvl, the others by
  // decreasing level.
  ghost predicate Asserting(s: Core, lvl: nat, c: Clause)
  {
    |c| >= 1 && AllFalse(s.model, c) && DistinctVars(c) && Level(s.model, c[0].v) == lvl
    && (forall i :: 1 <= i < |c| ==> Level(s.model, c[i].v) < lvl) && SortedByLevel(s.model, c)
  }

  // Sorting by decreasing level leaves the only literal of the highest level first.
  lemma FirstSorted(m: Model, lvl: nat, lits: seq<Lit>, sorted: seq<Lit>)
    requires |lits| >= 1 && multiset(sorted) == multiset(lits) && SortedByLevel(m, sorted)
    requires Level(m, lits[0].v) == lvl && forall l :: l in lits[1..] ==> Level(m, l.v) < lvl
    ensures |sorted| == |lits| && sorted[0] == lits[0] && multiset(sorted[1..]) == multiset(lits[1..])
  {
    var x, rest, y, others := lits[0], lits[1..], sorted[0], sorted[1..];
    assert |sorted| == |multiset(sorted)| == |lits|;
    assert lits == [x] + rest && sorted == [y] + others;
    assert y in lits && x in sorted by {
      assert y in multiset(lits) && x in multiset(sorted);
    }
    var k :| 0 <= k < |sorted| && sorted[k] == x;
    assert Level(m, y.v) >= Level(m, sorted[k].v);
    assert y == x by {
      assert y != x ==> y in rest;
    }
    hide SortedByLevel, Level;
    SameTails(lits, sorted);
  }

  lemma SameTails(a: seq<Lit>, b: seq<Lit>)
    requires |a| >= 1 && |b| >= 1 && a[0] == b[0] && multiset(a) == multiset(b)
    ensures multiset(a[1..]) == multiset(b[1..])
  {
    assert a == [a[0]] + a[1..] && b == [b[0]] + b[1..];
    assert multiset(a[1..]) == multiset(a) - multiset{a[0]};
  }

  lemma SortedCollected(s: Core, lvl: nat, met: seq<bool>, lits: seq<Lit>, sorted: seq<Lit>)
    requires Collected(s, lvl, met, lits) && Level(s.model, lits[0].v) == lvl && False(s.model, lits[0])
    requires multiset(sorted) == multiset(lits) && SortedByLevel(s.model, sorted)
    ensures |sorted| >= 1 && sorted[0] == lits[0] && multiset(sorted[1..]) == multiset(lits[1..])
    ensures Asserting(s, lvl, sorted) && Collected(s, lvl, met, sorted)
  {
    FirstSorted(s.model, lvl, lits, sorted);
    hide *;
    CollectedPermuted(s, lvl, met, lits, sorted);
    CollectedAsserting(s, lvl, met, sorted);
  }

  lemma CollectedPermuted(s: Core, lvl: nat, met: seq<bool>, lits: seq<Lit>, sorted: seq<Lit>)
    requires Collected(s, lvl, met, lits) && |sorted| >= 1 && multiset(sorted[1..]) == multiset(lits[1..])
    ensures Collected(s, lvl, met, sorted)
  {
    PermutedVars(lits[1..], sorted[1..]);
    hide Vars, DistinctVars, False, Level;
  }

  lemma CollectedAsserting(s: Core, lvl: nat, met: seq<bool>, c: Clause)
    requires Collected(s, lvl, met, c) && Level(s.model, c[0].v) == lvl && False(s.model, c[0])
    requires SortedByLevel(s.model, c)
    ensures Asserting(s, lvl, c)
  {
    var b := c[1..];
    assert forall i :: 1 <= i < |c| ==> c[i] in b;
    forall i, j | 0 <= i < j < |c| ensures c[i].v != c[j].v {
      assert c[j] == b[j - 1];
      assert i > 0 ==> c[i] == b[i - 1];
    }
  }

  lemma {:induction false} VarsDistinct(t: seq<Lit>)
    ensures |Vars(t)| <= |t|
    ensures |Vars(t)| == |t| ==> forall i, j :: 0 <= i < j < |t| ==> t[i].v != t[j].v
  {
    if t != [] {
      var p, l := t[..|t| - 1], t[|t| - 1];
      VarsDistinct(p);
      assert t == p + [l];
      assert Vars(t) == Vars(p) + {l.v};
      assert forall i :: 0 <= i < |p| ==> p[i] == t[i] && t[i].v in Vars(p);
    }
  }

  lemma PermutedVars(a: seq<Lit>, b: seq<Lit>)
    requires multiset(a) == multiset(b) && DistinctVars(a)
    ensures DistinctVars(b) && Vars(b) == Vars(a) && forall l :: l in b <==> l in a
  {
    VarsCard(a);
    assert |multiset(a)| == |multiset(b)| && forall l :: l in b <==> l in multiset(a);
    assert Vars(a) == Vars(b);
    VarsDistinct(b);
  }

  // A clause that keeps the first literal and some of the others in the same order is still asserting.
  lemma SubAsserting(s: Core, lvl: nat, c: Clause, idx: seq<nat>, m: Clause)
    requires Asserting(s, lvl, c) && |idx| == |m| >= 1 && idx[0] == 0
    requires forall k :: 0 <= k < |idx| ==> idx[k] < |c| && m[k] == c[idx[k]]
    requires forall j, k :: 0 <= j < k < |idx| ==> idx[j] < idx[k]
    ensures Asserting(s, lvl, m)
  {
  }

  // m keeps, in order, the first of lits and those of the next up to n that are not redundant.
  ghost predicate PickedAt(s: Core, met: seq<bool>, lits: Clause, m: Clause, n: nat, idx: seq<nat>)
  {
    |idx| == |m| >= 1 && n <= |lits| && idx[0] == 0
    && (forall k :: 0 <= k < |idx| ==> idx[k] < n && m[k] == lits[idx[k]])
    && (forall j, k :: 0 <= j < k < |idx| ==> idx[j] < idx[k])
    && (forall k :: 1 <= k < n ==> lits[k] in m[1..] || Redundant(s, met, lits[k]))
    && forall k :: 1 <= k < |m| ==> !Redundant(s, met, m[k])
  }

  ghost predicate Picked(s: Core, met: seq<bool>, lits: Clause, m: Clause, n: nat)
  {
    exists idx :: PickedAt(s, met, lits, m, n, idx)
  }

  lemma PickedFirst(s: Core, met: seq<bool>, lits: Clause)
    requires |lits| >= 1
    ensures Picked(s, met, lits, [lits[0]], 1)
  {
    assert PickedAt(s, met, lits, [lits[0]], 1, [0]);
  }

  lemma PickedMore(s: Core, met: seq<bool>, lits: Clause, m: Clause, n: nat)
    requires Picked(s, met, lits, m, n) && n < |lits| && !Redundant(s, met, lits[n])
    ensures Picked(s, met, lits, m + [lits[n]], n + 1)
  {
    hide Redundant;
    var idx :| PickedAt(s, met, lits, m, n, idx);
    assert (m + [lits[n]])[1..] == m[1..] + [lits[n]];
    assert PickedAt(s, met, lits, m + [lits[n]], n + 1, idx + [n]);
  }

  lemma PickedSkip(s: Core, met: seq<bool>, lits: Clause, m: Clause, n: nat)
    requires Picked(s, met, lits, m, n) && n < |lits| && Redundant(s, met, lits[n])
    ensures Picked(s, met, lits, m, n + 1)
  {
    hide Redundant;
    var idx :| PickedAt(s, met, lits, m, n, idx);
    assert PickedAt(s, met, lits, m, n + 1, idx);
  }

  lemma PickedDone(s: Core, lvl: nat, met: seq<bool>, lits: Clause, m: Clause)
    requires Picked(s, met, lits, m, |lits|) && Asserting(s, lvl, lits)
    ensures Asserting(s, lvl, m) && Minimised(s, met, lits, m)
  {
    var idx :| PickedAt(s, met, lits, m, |lits|, idx);
    SubAsserting(s, lvl, lits, idx, m);
    hide Asserting, Redundant;
    assert m[0] == lits[0];
    forall l | l in lits[1..] ensures l in m[1..] || Redundant(s, met, l) {
      var k :| 1 <= k < |lits| && lits[k] == l;
    }
    forall l | l in m[1..] ensures l in lits[1..] && !Redundant(s, met, l) {
      var k :| 1 <= k < |m| && m[k] == l;
      assert idx[0] < idx[k] && lits[1..][idx[k] - 1] == l;
    }
  }

  // ----- the block distance -----

  function LevelsIn(m: Model, c: Clause): set<nat> { set l | l in c :: Level(m, l.v) }

  lemma FirstLevel(m: Model, c: Clause)
    requires |c| >= 1
    ensures |LevelsIn(m, c[..1])| == 1
  {
    assert LevelsIn(m, c[..1]) == {Level(m, c[0].v)};
  }

  // In a sorted clause a change of level is a new level.
  lemma NextLevel(m: Model, c: Clause, i: nat)
    requires i < |c| && SortedByLevel(m, c)
    ensures i > 0 ==> |LevelsIn(m, c[..i + 1])| == |LevelsIn(m, c[..i])| + if Level(m, c[i].v) != Level(m, c[i - 1].v) then 1 else 0
  {
    if i > 0 {
      assert c[..i + 1] == c[..i] + [c[i]];
      assert LevelsIn(m, c[..i + 1]) == LevelsIn(m, c[..i]) + {Level(m, c[i].v)};
      assert c[..i][i - 1] == c[i - 1];
      forall l | l in c[..i] ensures Level(m, l.v) >= Level(m, c[i - 1].v) {
        var k :| 0 <= k < i && c[k] == l;
      }
    }
  }

  lemma AssertingSorted(s: Core, lvl: nat, c: Clause)
    requires Asserting(s, lvl, c)
    ensures |c| >= 1 && SortedByLevel(s.model, c)
  {
  }

  lemma {:induction false} LevelsFew(m: Model, c: Clause)
    ensures |LevelsIn(m, c)| <= |c|
  {
    if c != [] {
      LevelsFew(m, c[1..]);
      assert c == [c[0]] + c[1..];
      assert LevelsIn(m, c) == {Level(m, c[0].v)} + LevelsIn(m, c[1..]);
    }
  }

  // ----- steps of the traversal -----

  function NoMarks(n: nat): (r: seq<bool>)
    ensures |r| == n
  {
    seq(n, _ => false)
  }

  lemma StartWalk(s: Core, lvl: nat)
    ensures var none := NoMarks(|s.model|);
            Marks(s, lvl, none, none, |s.trail| - 1) && Collected(s, lvl, none, [Lit(0, true)])
            && MarkedBelow(s.trail, none, |s.trail|) == {}
  {
    var none := NoMarks(|s.model|);
    var start := [Lit(0, true)];
    assert start[1..] == [];
  }

  // Marking the variable of l, whose negation is at trail position r, adds position r, and no other above level 1.
  lemma MarkOne(s: Core, marked: seq<bool>, l: Lit, r: nat, n: int)
    requires TrailOk(s.model, s.trail) && |marked| == |s.model| && r < n <= |s.trail| && s.trail[r] == l.Neg()
    requires !marked[l.v]
    ensures OneMore(s, Level(s.model, l.v), |MarkedBelow(s.trail, marked, n)|, |MarkedBelow(s.trail, marked[l.v := true], n)|)
  {
    var before, after := MarkedBelow(s.trail, marked, n), MarkedBelow(s.trail, marked[l.v := true], n);
    PlaceOf(s, r);
    assert l.v < |s.model| by {
      assert True(s.model, s.trail[r]);
    }
    hide TrailOk, Level;
    assert r in after && r !in before;
    forall p | p in before ensures p in after {
    }
    SubsetCard(before + {r}, after);
    if Level(s.model, l.v) != 1 {
      forall p | p in after ensures p in before + {r} {
      }
      assert after == before + {r};
    }
  }

  lemma PlaceOf(s: Core, r: nat)
    requires TrailOk(s.model, s.trail) && r < |s.trail|
    ensures Level(s.model, s.trail[r].v) != 1 ==> forall p :: 0 <= p < |s.trail| && s.trail[p].v == s.trail[r].v ==> p == r
  {
  }

  // Counting trail positions: above level 1 a variable has one, at level 1 it may have more.
  ghost predicate OneMore(s: Core, lvl: nat, before: nat, after: nat)
  {
    after >= before + 1 && (lvl != 1 ==> after == before + 1)
  }

  // Leaving a marked position behind.
  lemma CountPop(t: seq<Lit>, marked: seq<bool>, p: nat)
    requires p < |t| && t[p].v < |marked| && marked[t[p].v]
    ensures |MarkedBelow(t, marked, p + 1)| == |MarkedBelow(t, marked, p)| + 1
  {
    assert MarkedBelow(t, marked, p + 1) == MarkedBelow(t, marked, p) + {p};
  }

  lemma OnlyOne<T>(s: set<T>, x: T, y: T)
    requires |s| == 1 && x in s && y in s
    ensures x == y
  {
    assert |s - {x}| == 0;
    assert x != y ==> y in s - {x};
  }

  // An unmarked position is passed: if it belongs to level lvl, its variable counts as met from now on.
  lemma PassOne(s: Core, confl: Clause, lvl: nat, met: seq<bool>, metLvl: seq<bool>, lits: seq<Lit>, ptr: nat)
    requires Walk(s, confl, lvl, met, metLvl, lits, ptr) && TrailOk(s.model, s.trail) && !metLvl[s.trail[ptr].v]
    ensures var v := s.trail[ptr].v;
            var met' := if Level(s.model, v) == lvl then met[v := true] else met;
            Walk(s, confl, lvl, met', metLvl, lits, ptr - 1)
    ensures MarkedBelow(s.trail, metLvl, ptr + 1) == MarkedBelow(s.trail, metLvl, ptr)
  {
    var v := s.trail[ptr].v;
    var met' := if Level(s.model, v) == lvl then met[v := true] else met;
    if Level(s.model, v) == lvl && !met[v] {
      CollectLit(s, lvl, met, lits, Lit(v, true));
    }
    assert met[v] ==> met' == met;
    hide Collected;
    forall l | Taken(s, lvl, met, metLvl, l) ensures Taken(s, lvl, met', metLvl, l) {
    }
    forall p | lvl >= 2 && ptr - 1 < p < |s.trail| && s.trail[p].v < |metLvl| && metLvl[s.trail[p].v]
      ensures Resolved(s, lvl, met', metLvl, p)
    {
      assert Resolved(s, lvl, met, metLvl, p);
    }
  }

  // While the reason of position p is being read: everything but the rest of that reason is covered.
  ghost predicate Reading(s: Core, confl: Clause, lvl: nat, met: seq<bool>, metLvl: seq<bool>, lits: seq<Lit>, p: nat,
                          c: Clause, n: nat)
  {
    p < |s.trail| && Marks(s, lvl, met, metLvl, p - 1) && Collected(s, lvl, met, lits) && n <= |c|
    && s.trail[p].v < |met| && met[s.trail[p].v]
    && (forall l :: l in confl ==> Taken(s, lvl, met, metLvl, l))
    && (lvl >= 2 ==> AllResolved(s, lvl, met, metLvl, p))
    && (forall k :: 0 <= k < n ==> c[k] == s.trail[p] || Taken(s, lvl, met, metLvl, c[k]))
  }

  lemma StartReading(s: Core, confl: Clause, lvl: nat, met: seq<bool>, metLvl: seq<bool>, lits: seq<Lit>, p: nat, c: Clause)
    requires Walk(s, confl, lvl, met, metLvl, lits, p) && s.trail[p].v < |met| && metLvl[s.trail[p].v]
    ensures Reading(s, confl, lvl, met, metLvl, lits, p, c, 0)
    ensures |MarkedBelow(s.trail, metLvl, p)| == |MarkedBelow(s.trail, metLvl, p + 1)| - 1
  {
    CountPop(s.trail, metLvl, p);
  }

  // A literal of the reason that was met before, or the forced literal itself.
  lemma ReadMet(s: Core, confl: Clause, lvl: nat, met: seq<bool>, metLvl: seq<bool>, lits: seq<Lit>, p: nat, c: nat, n: nat)
    requires CoreOk(s, |s.model|) && c < |s.clauses| && Reading(s, confl, lvl, met, metLvl, lits, p, s.clauses[c], n)
    requires n < |s.clauses[c]| && s.reason[s.trail[p].v] == Some(c)
    requires s.clauses[c][n].v < |met| && met[s.clauses[c][n].v]
    ensures Reading(s, confl, lvl, met, metLvl, lits, p, s.clauses[c], n + 1)
  {
    var l := s.clauses[c][n];
    if l != s.trail[p] {
      EarlierFalse(s, p, c, l);
    }
  }

  lemma ReadTop(s: Core, confl: Clause, lvl: nat, met: seq<bool>, metLvl: seq<bool>, lits: seq<Lit>, p: nat, c: nat, n: nat)
    requires CoreOk(s, |s.model|) && c < |s.clauses| && Reading(s, confl, lvl, met, metLvl, lits, p, s.clauses[c], n)
    requires n < |s.clauses[c]| && s.reason[s.trail[p].v] == Some(c)
    requires s.clauses[c][n].v < |met| && !met[s.clauses[c][n].v] && Level(s.model, s.clauses[c][n].v) == lvl
    ensures var l := s.clauses[c][n];
            && Reading(s, confl, lvl, met[l.v := true], metLvl[l.v := true], lits, p, s.clauses[c], n + 1)
            && OneMore(s, lvl, |MarkedBelow(s.trail, metLvl, p)|, |MarkedBelow(s.trail, metLvl[l.v := true], p)|)
  {
    hide TrailOk, ReasonsOk, DbOk, LocksOk, Collected, MarkedBelow, Resolved;
    var l := s.clauses[c][n];
    EarlierFalse(s, p, c, l);
    var r :| 0 <= r < p && s.trail[r] == l.Neg();
    TakeTop(s, lvl, met, metLvl, lits, p - 1, l);
    ReadKeeps(s, confl, lvl, met, metLvl, lits, met[l.v := true], metLvl[l.v := true], p, s.clauses[c], n, r);
    MarkOne(s, metLvl, l, r, p);
  }

  lemma ReadLow(s: Core, confl: Clause, lvl: nat, met: seq<bool>, metLvl: seq<bool>, lits: seq<Lit>, p: nat, c: nat, n: nat)
    requires CoreOk(s, |s.model|) && LevelsUpTo(s.model, s.trail, lvl)
    requires c < |s.clauses| && Reading(s, confl, lvl, met, metLvl, lits, p, s.clauses[c], n)
    requires n < |s.clauses[c]| && s.reason[s.trail[p].v] == Some(c)
    requires s.clauses[c][n].v < |met| && !met[s.clauses[c][n].v] && Level(s.model, s.clauses[c][n].v) != lvl
    ensures var l := s.clauses[c][n];
            Reading(s, confl, lvl, met[l.v := true], metLvl, lits + [l], p, s.clauses[c], n + 1)
  {
    hide TrailOk, ReasonsOk, DbOk, LocksOk, Collected, MarkedBelow, Resolved;
    var l := s.clauses[c][n];
    EarlierFalse(s, p, c, l);
    var r :| 0 <= r < p && s.trail[r] == l.Neg();
    assert Level(s.model, s.trail[p].v) <= lvl;
    TakeLow(s, lvl, met, metLvl, lits, p - 1, l);
    ReadKeeps(s, confl, lvl, met, metLvl, lits, met[l.v := true], metLvl, p, s.clauses[c], n, r);
  }

  lemma ReadKeeps(s: Core, confl: Clause, lvl: nat, met: seq<bool>, metLvl: seq<bool>, lits: seq<Lit>,
                  met': seq<bool>, metLvl': seq<bool>, p: nat, c: Clause, n: nat, r: nat)
    requires Reading(s, confl, lvl, met, metLvl, lits, p, c, n) && MoreMarks(met, metLvl, met', metLvl')
    requires TrailOk(s.model, s.trail) && r < p && s.trail[r].v < |metLvl|
    requires metLvl' == metLvl || (metLvl' == metLvl[s.trail[r].v := true] && Level(s.model, s.trail[r].v) == lvl)
    ensures forall l :: l in confl ==> Taken(s, lvl, met', metLvl', l)
    ensures forall k :: 0 <= k < n ==> c[k] == s.trail[p] || Taken(s, lvl, met', metLvl', c[k])
    ensures lvl >= 2 ==> AllResolved(s, lvl, met', metLvl', p)
  {
    forall l | Taken(s, lvl, met, metLvl, l) ensures Taken(s, lvl, met', metLvl', l) {
      TakenMono(s, lvl, met, metLvl, met', metLvl', l);
    }
    forall q | lvl >= 2 && p < q < |s.trail| && s.trail[q].v < |metLvl'| && metLvl'[s.trail[q].v]
      ensures Resolved(s, lvl, met', metLvl', q)
    {
      assert metLvl' != metLvl ==> s.trail[q].v != s.trail[r].v;
      assert Resolved(s, lvl, met, metLvl, q);
    }
  }

  lemma DoneReading(s: Core, confl: Clause, lvl: nat, met: seq<bool>, metLvl: seq<bool>, lits: seq<Lit>, p: nat, c: nat)
    requires c < |s.clauses| && p < |s.trail| && s.trail[p].v < |s.reason| && s.reason[s.trail[p].v] == Some(c)
    requires Reading(s, confl, lvl, met, metLvl, lits, p, s.clauses[c], |s.clauses[c]|)
    ensures Walk(s, confl, lvl, met, metLvl, lits, p - 1)
  {
    forall l | l in s.clauses[c] && l != s.trail[p] ensures Taken(s, lvl, met, metLvl, l) {
      var k :| 0 <= k < |s.clauses[c]| && s.clauses[c][k] == l;
    }
  }

  // A literal without a reason, with another one marked below it, is a top-level fact and is simply dropped.
  lemma DropFact(s: Core, confl: Clause, lvl: nat, met: seq<bool>, metLvl: seq<bool>, lits: seq<Lit>, p: nat)
    requires Bound(s.model, s.trail, s.reason, s.clauses) && Walk(s, confl, lvl, met, metLvl, lits, p)
    requires s.trail[p].v < |metLvl| && s.reason[s.trail[p].v] == None && metLvl[s.trail[p].v]
    requires |MarkedBelow(s.trail, metLvl, p + 1)| > 1
    ensures Walk(s, confl, lvl, met, metLvl, lits, p - 1)
  {
    CountPop(s.trail, metLvl, p);
    var q :| q in MarkedBelow(s.trail, metLvl, p);
    NoReasonAtTop(s, lvl, metLvl, p, q);
  }

  lemma CollectedHead(s: Core, lvl: nat, met: seq<bool>, lits: seq<Lit>, l: Lit)
    requires Collected(s, lvl, met, lits)
    ensures Collected(s, lvl, met, lits[0 := l])
  {
    assert lits[0 := l][1..] == lits[1..];
  }

  // With a single marked position left, the first marked literal of the trail is the asserting one.
  lemma FinishWalk(s: Core, confl: Clause, lvl: nat, met: seq<bool>, metLvl: seq<bool>, lits: seq<Lit>, ptr: int, u: nat)
    requires TrailOk(s.model, s.trail) && Walk(s, confl, lvl, met, metLvl, lits, ptr)
    requires |MarkedBelow(s.trail, metLvl, ptr + 1)| >= 1 && (lvl >= 2 ==> |MarkedBelow(s.trail, metLvl, ptr + 1)| == 1)
    requires u < |s.trail| && s.trail[u].v < |metLvl| && metLvl[s.trail[u].v]
    requires forall p :: 0 <= p < u ==> s.trail[p].v < |metLvl| && !metLvl[s.trail[p].v]
    requires forall l :: l in confl ==> False(s.model, l)
    ensures |lits| >= 1 && Finished(s, confl, lvl, met, metLvl, lits[0 := s.trail[u].Neg()], u)
    ensures Level(s.model, s.trail[u].v) == lvl && False(s.model, s.trail[u].Neg())
  {
    var below := MarkedBelow(s.trail, metLvl, ptr + 1);
    var only :| only in below;
    assert u in below;
    forall p | lvl >= 2 && 0 <= p < |s.trail| && s.trail[p].v < |metLvl| && metLvl[s.trail[p].v] && p != u
      ensures Resolved(s, lvl, met, metLvl, p)
    {
      if p in below {
        OnlyOne(below, p, u);
      }
    }
    CollectedHead(s, lvl, met, lits, s.trail[u].Neg());
  }

  // ----- glue for the methods of the solver -----

  // The first n literals of the conflict have been taken into account.
  ghost predicate ConflictRead(s: Core, confl: Clause, lvl: nat, met: seq<bool>, metLvl: seq<bool>, lits: seq<Lit>, n: nat)
  {
    n <= |confl| && Marks(s, lvl, met, metLvl, |s.trail| - 1) && Collected(s, lvl, met, lits)
    && (forall k :: 0 <= k < n ==> Taken(s, lvl, met, metLvl, confl[k]))
    && (forall k :: n <= k < |confl| ==> confl[k].v < |met| && !met[confl[k].v])
  }

  lemma ConflictStart(s: Core, confl: Clause, lvl: nat)
    requires AllFalse(s.model, confl)
    ensures var none := NoMarks(|s.model|);
            ConflictRead(s, confl, lvl, none, none, [Lit(0, true)], 0) && MarkedBelow(s.trail, none, |s.trail|) == {}
  {
    StartWalk(s, lvl);
    assert forall k :: 0 <= k < |confl| ==> confl[k] in confl;
  }

  lemma ConflictTop(s: Core, confl: Clause, lvl: nat, met: seq<bool>, metLvl: seq<bool>, lits: seq<Lit>, n: nat)
    requires ConflictRead(s, confl, lvl, met, metLvl, lits, n) && n < |confl| && Level(s.model, confl[n].v) == lvl
    requires TrailOk(s.model, s.trail) && LevelsUpTo(s.model, s.trail, lvl)
    requires AllFalse(s.model, confl) && DistinctVars(confl)
    ensures var l := confl[n];
            && l.v < |met| == |metLvl|
            && ConflictRead(s, confl, lvl, met[l.v := true], metLvl[l.v := true], lits, n + 1)
            && OneMore(s, lvl, |MarkedBelow(s.trail, metLvl, |s.trail|)|, |MarkedBelow(s.trail, metLvl[l.v := true], |s.trail|)|)
  {
    var l := confl[n];
    ConflictLit(s, confl, lvl, n);
    var r :| 0 <= r < |s.trail| && s.trail[r] == l.Neg();
    TakeTop(s, lvl, met, metLvl, lits, |s.trail| - 1, l);
    MarkOne(s, metLvl, l, r, |s.trail|);
    hide Marks, Collected, Taken, MoreMarks, TrailOk, LevelsUpTo, AllFalse, MarkedBelow;
    forall k | 0 <= k < n ensures Taken(s, lvl, met[l.v := true], metLvl[l.v := true], confl[k]) {
      TakenMono(s, lvl, met, metLvl, met[l.v := true], metLvl[l.v := true], confl[k]);
    }
  }

  lemma ConflictLow(s: Core, confl: Clause, lvl: nat, met: seq<bool>, metLvl: seq<bool>, lits: seq<Lit>, n: nat)
    requires ConflictRead(s, confl, lvl, met, metLvl, lits, n) && n < |confl| && Level(s.model, confl[n].v) != lvl
    requires TrailOk(s.model, s.trail) && LevelsUpTo(s.model, s.trail, lvl)
    requires AllFalse(s.model, confl) && DistinctVars(confl)
    ensures var l := confl[n];
            && l.v < |met| == |metLvl|
            && ConflictRead(s, confl, lvl, met[l.v := true], metLvl, lits + [l], n + 1)
  {
    var l := confl[n];
    ConflictLit(s, confl, lvl, n);
    TakeLow(s, lvl, met, metLvl, lits, |s.trail| - 1, l);
    hide Marks, Collected, Taken, MoreMarks, TrailOk, LevelsUpTo, AllFalse;
    forall k | 0 <= k < n ensures Taken(s, lvl, met[l.v := true], metLvl, confl[k]) {
      TakenMono(s, lvl, met, metLvl, met[l.v := true], metLvl, confl[k]);
    }
  }

  lemma ConflictInRange(s: Core, confl: Clause, lvl: nat, met: seq<bool>, metLvl: seq<bool>, lits: seq<Lit>, n: nat)
    requires ConflictRead(s, confl, lvl, met, metLvl, lits, n) && n < |confl|
    ensures confl[n].v < |met| == |metLvl|
  {
  }

  lemma ConflictLit(s: Core, confl: Clause, lvl: nat, n: nat)
    requires n < |confl| && AllFalse(s.model, confl) && TrailOk(s.model, s.trail) && LevelsUpTo(s.model, s.trail, lvl)
    ensures False(s.model, confl[n]) && Level(s.model, confl[n].v) <= lvl
    ensures exists r :: 0 <= r < |s.trail| && s.trail[r] == confl[n].Neg()
  {
    assert confl[n] in confl;
    FalseInTrail(s.model, s.trail, confl[n]);
  }

  lemma ConflictDone(s: Core, confl: Clause, lvl: nat, met: seq<bool>, metLvl: seq<bool>, lits: seq<Lit>)
    requires ConflictRead(s, confl, lvl, met, metLvl, lits, |confl|)
    ensures Walk(s, confl, lvl, met, metLvl, lits, |s.trail| - 1)
  {
    forall l | l in confl ensures Taken(s, lvl, met, metLvl, l) {
      var k :| 0 <= k < |confl| && confl[k] == l;
    }
  }

  lemma ConflictFacts(s: Core, nbVars: nat, c: nat, lvl: nat)
    requires CoreOk(s, nbVars) && ConflictAt(s, c, lvl)
    ensures c < |s.clauses| && AllFalse(s.model, s.clauses[c]) && DistinctVars(s.clauses[c])
    ensures TrailOk(s.model, s.trail) && lvl >= 1 && exists l :: l in s.clauses[c] && Level(s.model, l.v) == lvl
  {
    assert ClauseOk(s.clauses[c], nbVars);
  }

  lemma WalkRange(s: Core, confl: Clause, lvl: nat, met: seq<bool>, metLvl: seq<bool>, lits: seq<Lit>, ptr: int)
    requires Walk(s, confl, lvl, met, metLvl, lits, ptr) && |MarkedBelow(s.trail, metLvl, ptr + 1)| >= 1
    requires TrailOk(s.model, s.trail)
    ensures 0 <= ptr < |s.trail| && s.trail[ptr].v < |s.model|
  {
    var p :| p in MarkedBelow(s.trail, metLvl, ptr + 1);
    assert True(s.model, s.trail[ptr]);
  }

  lemma MarkedLevel(s: Core, confl: Clause, lvl: nat, met: seq<bool>, metLvl: seq<bool>, lits: seq<Lit>, p: nat)
    requires Walk(s, confl, lvl, met, metLvl, lits, p) && s.trail[p].v < |metLvl| && metLvl[s.trail[p].v]
    ensures Level(s.model, s.trail[p].v) == lvl && met[s.trail[p].v] && |lits| >= 1
  {
  }

  lemma WalkVectors(s: Core, confl: Clause, lvl: nat, met: seq<bool>, metLvl: seq<bool>, lits: seq<Lit>, ptr: int)
    requires Walk(s, confl, lvl, met, metLvl, lits, ptr)
    ensures |met| == |metLvl| == |s.model|
  {
  }

  lemma ClauseVars(s: Core, nbVars: nat, c: nat)
    requires CoreOk(s, nbVars) && c < |s.clauses|
    ensures forall l :: l in s.clauses[c] ==> l.v < nbVars
  {
    assert ClauseOk(s.clauses[c], nbVars);
  }

  lemma TrailOf(s: Core, nbVars: nat)
    requires CoreOk(s, nbVars)
    ensures TrailOk(s.model, s.trail) && forall i :: 0 <= i < |s.trail| ==> s.trail[i].v < nbVars
  {
  }

  lemma ReasonInArena(s: Core, nbVars: nat, p: nat)
    requires CoreOk(s, nbVars) && p < |s.trail| && s.trail[p].v < |s.reason| && s.reason[s.trail[p].v].Some?
    ensures s.reason[s.trail[p].v].value < |s.clauses|
  {
    assert ReasonOk(s.model, s.trail, p, s.reason[s.trail[p].v], s.clauses);
  }

  lemma ReasonVars(s: Core, nbVars: nat, c: nat, u: Lit)
    requires CoreOk(s, nbVars) && u in s.trail && u.v < |s.reason| && s.reason[u.v] == Some(c)
    ensures c < |s.clauses| && forall l :: l in s.clauses[c] ==> l.v < nbVars
  {
    var p :| 0 <= p < |s.trail| && s.trail[p] == u;
    ReasonInArena(s, nbVars, p);
    ClauseVars(s, nbVars, c);
  }

  lemma FactDropped(s: Core, nbVars: nat, confl: Clause, lvl: nat, met: seq<bool>, metLvl: seq<bool>, lits: seq<Lit>, p: nat)
    requires CoreOk(s, nbVars) && p < |s.trail| && Walk(s, confl, lvl, met, metLvl, lits, p)
    requires s.trail[p].v < |metLvl| && metLvl[s.trail[p].v] && s.trail[p].v < |s.reason|
    requires s.reason[s.trail[p].v] == None && |MarkedBelow(s.trail, metLvl, p + 1)| > 1
    ensures Walk(s, confl, lvl, met, metLvl, lits, p - 1)
  {
    DropFact(s, confl, lvl, met, metLvl, lits, p);
  }

  lemma AllFalseIn(s: Core, c: Clause)
    requires AllFalse(s.model, c)
    ensures forall l :: l in c ==> False(s.model, l)
  {
  }

  lemma FinishedCollected(s: Core, confl: Clause, lvl: nat, met: seq<bool>, metLvl: seq<bool>, lits: seq<Lit>, u: nat)
    requires Finished(s, confl, lvl, met, metLvl, lits, u)
    ensures Collected(s, lvl, met, lits) && |lits| >= 1
  {
  }

  // Minimising after sorting is as good as minimising the literals as collected.
  lemma MinimisedSorted(s: Core, met: seq<bool>, lits: seq<Lit>, sorted: seq<Lit>, m: Clause)
    requires Minimised(s, met, sorted, m) && |lits| >= 1 && sorted[0] == lits[0]
    requires multiset(sorted[1..]) == multiset(lits[1..])
    ensures Minimised(s, met, lits, m)
  {
    assert forall l :: l in lits[1..] <==> l in multiset(sorted[1..]);
    assert forall l :: l in sorted[1..] <==> l in multiset(sorted[1..]);
  }

  lemma NoReasonKept(s: Core, met: seq<bool>, l: Lit)
    ensures l.v < |s.reason| && s.reason[l.v] == None ==> !Redundant(s, met, l)
  {
  }

  lemma SortedNone(m: Model)
    ensures SortedByLevel(m, [])
  {
  }

  lemma InsertSorted(m: Model, r: seq<Lit>, l: Lit, k: nat)
    requires SortedByLevel(m, r) && k <= |r|
    requires forall j :: 0 <= j < k ==> Level(m, r[j].v) >= Level(m, l.v)
    requires k < |r| ==> Level(m, r[k].v) < Level(m, l.v)
    ensures SortedByLevel(m, r[..k] + [l] + r[k..])
    ensures multiset(r[..k] + [l] + r[k..]) == multiset(r) + multiset{l}
  {
    assert r == r[..k] + r[k..];
  }

  lemma AssertingVars(s: Core, lvl: nat, c: Clause)
    requires Asserting(s, lvl, c) && TrailOk(s.model, s.trail)
    ensures |c| >= 1 && forall l :: l in c ==> l.v < |s.model| && l.Neg() in s.trail
  {
    forall l | l in c ensures l.v < |s.model| && l.Neg() in s.trail {
      FalseInTrail(s.model, s.trail, l);
    }
  }
}
