// Changes of the solver state outside propagation: adding and deleting learned clauses, undoing the
// bindings above a level, and taking the pending literal (solver/solver.go, solver/watcher.go).
module Backjump {
  import opened Logic
  import opened UnitProp
  import opened Bindings
  import opened Watches
  import opened State
  import opened Learn

  // ----- a new clause -----

  function WithClause(s: Core, c: Clause, i: ClauseInfo): Core
  {
    s.(clauses := s.clauses + [c], info := s.info + [i], live := s.live + {|s.clauses|})
  }

  lemma AddClause(s: Core, nbVars: nat, wl: Lists, wb: Lists, done: set<Lit>, lvl: nat, c: Clause, i: ClauseInfo)
    requires Sound(s, nbVars, wl, wb, done, lvl) && ClauseOk(c, nbVars)
    ensures c[0].v < nbVars && c[1].v < nbVars && c[0].v != c[1].v
    ensures c[0].Neg() in wl && c[1].Neg() in wl && c[0].Neg() in wb && c[1].Neg() in wb
    ensures var s' := WithClause(s, c, i);
            && (|c| == 2 ==> SoundFor(s', nbVars, wl, Added(wb, |s.clauses|, c[0], c[1]), done, lvl, s.live))
            && (|c| >= 3 ==> SoundFor(s', nbVars, Added(wl, |s.clauses|, c[0], c[1]), wb, done, lvl, s.live))
  {
    var s', id := WithClause(s, c, i), |s.clauses|;
    Appended(s.clauses, s.live, nbVars, wl, wb, c);
    OtherKind(s'.clauses, s.live, wl, wb, id);
    if |c| == 2 {
      WatchBin(s'.clauses, s.live, nbVars, wb, id);
    } else {
      WatchLong(s'.clauses, s.live, nbVars, wl, id);
    }
    AddCore(s, nbVars, c, i);
    hide CoreOk, LongOk, BinOk, LevelsUpTo, Added;
    forall e | e in s.live && e < |s'.clauses| ensures ClauseGuarded(s.model, s'.clauses[e], done) {
      assert DbOk(s.clauses, s.live, nbVars);
      assert ClauseGuarded(s.model, s.clauses[e], done);
    }
  }

  lemma AddCore(s: Core, nbVars: nat, c: Clause, i: ClauseInfo)
    requires CoreOk(s, nbVars) && ClauseOk(c, nbVars)
    ensures CoreOk(WithClause(s, c, i), nbVars)
    ensures DbOk(s.clauses, s.live, nbVars)
  {
    var s' := WithClause(s, c, i);
    forall e | 0 <= e < |s'.clauses| ensures ClauseOk(s'.clauses[e], nbVars) {
      assert e < |s.clauses| ==> ClauseOk(s.clauses[e], nbVars);
    }
    forall k | 0 <= k < |s.trail|
      ensures ReasonOk(s'.model, s'.trail, k, s'.reason[s'.trail[k].v], s'.clauses) && LockOk(s', s'.reason[s'.trail[k].v])
    {
      assert ReasonOk(s.model, s.trail, k, s.reason[s.trail[k].v], s.clauses) && LockOk(s, s.reason[s.trail[k].v]);
    }
  }

  // ----- undoing bindings -----

  // s' is s without the trail literals from position i to position j: their variables are free and
  // without reason, and their reasons are unlocked.
  ghost predicate Undone(s: Core, s': Core, i: nat, j: nat)
  {
    i <= j <= |s.trail| && s'.clauses == s.clauses && s'.live == s.live
    && |s'.model| == |s.model| && |s'.reason| == |s.reason| && SameInfo(s.info, s'.info)
    && (forall v :: 0 <= v < |s.model| && v < |s.reason| ==>
          if v in Vars(s.trail[i..j]) then s'.model[v] == 0 && s'.reason[v] == None
          else s'.model[v] == s.model[v] && s'.reason[v] == s.reason[v])
    && (forall c :: 0 <= c < |s.info| && s.info[c].locked && !s'.info[c].locked ==>
          exists k :: i <= k < j && s.trail[k].v < |s.reason| && s.reason[s.trail[k].v] == Some(c))
  }

  lemma UndoNone(s: Core, i: nat)
    requires i <= |s.trail|
    ensures Undone(s, s, i, i)
  {
    assert s.trail[i..i] == [];
  }

  function Freed(s: Core, v: nat): Core
    requires v < |s.model| && v < |s.reason|
    requires s.reason[v].Some? ==> s.reason[v].value < |s.info|
  {
    s.(model := s.model[v := 0], reason := s.reason[v := None],
       info := if s.reason[v].Some? then Locked(s.info, s.reason[v].value, false) else s.info)
  }

  lemma UndoNext(s: Core, s': Core, i: nat, j: nat)
    requires Undone(s, s', i, j) && j < |s.trail| && s.trail[j].v < |s.model| && s.trail[j].v < |s.reason|
    requires s'.reason[s.trail[j].v].Some? ==> s'.reason[s.trail[j].v].value < |s'.info|
    requires s.trail[j].v !in Vars(s.trail[i..j])
    ensures Undone(s, Freed(s', s.trail[j].v), i, j + 1)
  {
    var t := Freed(s', s.trail[j].v);
    assert s.trail[i..j + 1] == s.trail[i..j] + [s.trail[j]];
    assert Vars(s.trail[i..j + 1]) == Vars(s.trail[i..j]) + {s.trail[j].v};
    forall c | 0 <= c < |s.info| && s.info[c].locked && !t.info[c].locked
      ensures exists k :: i <= k < j + 1 && s.trail[k].v < |s.reason| && s.reason[s.trail[k].v] == Some(c)
    {
      if s'.info[c].locked {
        assert s.reason[s.trail[j].v] == Some(c);
      } else {
        var k :| i <= k < j && s.trail[k].v < |s.reason| && s.reason[s.trail[k].v] == Some(c);
      }
    }
  }

  // Position i splits the trail at level lvl.
  ghost predicate SplitsAt(s: Core, i: nat, lvl: nat)
  {
    i <= |s.trail| && (forall k :: 0 <= k < i ==> Level(s.model, s.trail[k].v) <= lvl)
    && (forall k :: i <= k < |s.trail| ==> Level(s.model, s.trail[k].v) > lvl)
  }

  // s' is s backjumped to level lvl.
  ghost predicate Cut(s: Core, s': Core, i: nat, lvl: nat)
  {
    SplitsAt(s, i, lvl) && Undone(s, s', i, |s.trail|) && s'.trail == s.trail[..i]
  }

  lemma {:induction false} VarsFrom(t: seq<Lit>, i: nat, v: nat)
    requires i <= |t|
    ensures v in Vars(t[i..|t|]) <==> exists k :: i <= k < |t| && t[k].v == v
  {
    var above := t[i..|t|];
    if v in Vars(above) {
      var k :| 0 <= k < |above| && above[k].v == v;
      assert t[i + k].v == v;
    }
    if k :| i <= k < |t| && t[k].v == v {
      assert above[k - i] == t[k];
    }
  }

  lemma CutBinding(s: Core, s': Core, i: nat, lvl: nat, l: Lit)
    requires Cut(s, s', i, lvl) && TrailOk(s.model, s.trail) && |s.reason| == |s.model|
    ensures True(s'.model, l) <==> l in s'.trail
    ensures l in s'.trail ==> True(s.model, l) && Level(s'.model, l.v) == Level(s.model, l.v) <= lvl
                              && s'.reason[l.v] == s.reason[l.v]
    ensures True(s.model, l) && Level(s.model, l.v) <= lvl ==> l in s'.trail
  {
    VarsFrom(s.trail, i, l.v);
    hide Vars;
    assert True(s.model, l) <==> l in s.trail;
    assert forall k :: 0 <= k < i ==> s'.trail[k] == s.trail[k];
    if l in s'.trail {
      var k :| 0 <= k < i && s.trail[k] == l;
      assert l.v !in Vars(s.trail[i..|s.trail|]);
    } else if l in s.trail {
      var k :| 0 <= k < |s.trail| && s.trail[k] == l;
    }
  }

  lemma CutTrail(s: Core, s': Core, i: nat, lvl: nat)
    requires Cut(s, s', i, lvl) && TrailOk(s.model, s.trail) && |s.reason| == |s.model|
    ensures TrailOk(s'.model, s'.trail) && LevelsUpTo(s'.model, s'.trail, lvl)
  {
    forall l: Lit ensures True(s'.model, l) <==> l in s'.trail {
      CutBinding(s, s', i, lvl, l);
    }
    forall k | 0 <= k < |s'.trail| ensures Level(s'.model, s'.trail[k].v) == Level(s.model, s.trail[k].v) <= lvl {
      CutBinding(s, s', i, lvl, s'.trail[k]);
      assert s'.trail[k] == s.trail[k];
    }
  }

  lemma CutReason(s: Core, s': Core, i: nat, lvl: nat, k: nat)
    requires Cut(s, s', i, lvl) && Bound(s.model, s.trail, s.reason, s.clauses) && LocksOk(s) && |s.info| == |s.clauses|
    requires k < i
    ensures k < |s'.trail| && s'.trail[k].v < |s'.reason|
    ensures ReasonOk(s'.model, s'.trail, k, s'.reason[s'.trail[k].v], s'.clauses) && LockOk(s', s'.reason[s'.trail[k].v])
  {
    assert s'.trail[k] == s.trail[k] && s'.trail[..k] == s.trail[..k];
    CutBinding(s, s', i, lvl, s.trail[k]);
    var r := s.reason[s.trail[k].v];
    assert ReasonOk(s.model, s.trail, k, r, s.clauses) && LockOk(s, r);
    if r.Some? {
      if s.info[r.value].locked && !s'.info[r.value].locked {
        var j :| i <= j < |s.trail| && s.trail[j].v < |s.reason| && s.reason[s.trail[j].v] == Some(r.value);
        ReasonOnce(s.model, s.trail, s.reason, s.clauses, k, j);
      }
    } else {
      forall j | 0 <= j < k ensures Level(s'.model, s'.trail[j].v) == Level(s.model, s.trail[j].v) {
        assert s'.trail[j] == s.trail[j];
        CutBinding(s, s', i, lvl, s.trail[j]);
      }
      assert s.trail[..k] == s'.trail[..k];
      assert LevelsBelow(s.model, s.trail[..k], Level(s.model, s.trail[k].v))
        ==> LevelsBelow(s'.model, s'.trail[..k], Level(s'.model, s'.trail[k].v));
    }
  }

  lemma CutCore(s: Core, s': Core, i: nat, nbVars: nat, lvl: nat)
    requires Cut(s, s', i, lvl) && CoreOk(s, nbVars)
    ensures CoreOk(s', nbVars) && LevelsUpTo(s'.model, s'.trail, lvl)
  {
    CutTrail(s, s', i, lvl);
    forall k | 0 <= k < |s'.trail|
      ensures s'.trail[k].v < |s'.reason|
      ensures ReasonOk(s'.model, s'.trail, k, s'.reason[s'.trail[k].v], s'.clauses) && LockOk(s', s'.reason[s'.trail[k].v])
    {
      CutReason(s, s', i, lvl, k);
    }
  }

  // Backjumping touches no watch list: the clauses stay guarded, because the true literal that guards a
  // false watch was bound no later than the watch.
  lemma CutGuarded(s: Core, s': Core, i: nat, lvl: nat, guarded: set<nat>, done: set<Lit>)
    requires Cut(s, s', i, lvl) && TrailOk(s.model, s.trail) && |s.reason| == |s.model|
    requires AllGuarded(s.model, s.clauses, guarded, done) && Elems(s.trail[..i]) <= done
    ensures AllGuarded(s'.model, s'.clauses, guarded, Elems(s'.trail))
  {
    forall c | c in guarded && c < |s'.clauses| ensures ClauseGuarded(s'.model, s'.clauses[c], Elems(s'.trail)) {
      assert ClauseGuarded(s.model, s.clauses[c], done);
      var cl := s.clauses[c];
      forall k: nat | k < 2 && cl[k].Neg() in Elems(s'.trail) ensures TrueBelow(s'.model, cl, Level(s'.model, cl[k].v)) {
        assert Guarded(s.model, cl, cl[k], done);
        CutBinding(s, s', i, lvl, cl[k].Neg());
        var l :| l in cl && True(s.model, l) && Level(s.model, l.v) <= Level(s.model, cl[k].v);
        CutBinding(s, s', i, lvl, l);
      }
    }
  }

  lemma CutSound(s: Core, s': Core, i: nat, nbVars: nat, wl: Lists, wb: Lists, done: set<Lit>, top: nat, lvl: nat, guarded: set<nat>)
    requires Cut(s, s', i, lvl) && SoundFor(s, nbVars, wl, wb, done, top, guarded) && Elems(s.trail[..i]) <= done
    ensures SoundFor(s', nbVars, wl, wb, Elems(s'.trail), lvl, guarded)
  {
    CutCore(s, s', i, nbVars, lvl);
    CutGuarded(s, s', i, lvl, guarded, done);
  }

  lemma CutUnreasoned(s: Core, s': Core, i: nat, lvl: nat)
    requires Cut(s, s', i, lvl) && Unreasoned(s.model, s.reason, -1)
    ensures Unreasoned(s'.model, s'.reason, -1)
  {
  }

  lemma CutKnown(f: set<Bag>, s: Core, s': Core, i: nat, lvl: nat)
    requires Cut(s, s', i, lvl) && Known(f, s) && TrailOk(s.model, s.trail) && |s.reason| == |s.model|
    ensures Known(f, s')
  {
    forall p | 0 <= p < |s'.trail| && s'.trail[p].v < |s'.reason| && s'.reason[s'.trail[p].v] == None
      ensures Level(s'.model, s'.trail[p].v) == 1 ==> multiset{s'.trail[p]} in f
    {
      assert s'.trail[p] == s.trail[p];
      CutBinding(s, s', i, lvl, s.trail[p]);
    }
  }

  // ----- the pending literal -----

  // The clause that asserts the pending literal, if there is one: it alone may be unguarded.
  ghost function Waiting(r: Option<nat>): set<nat> { if r.Some? then {r.value} else {} }

  // Everything on the trail is propagated, and lit is to be bound at level lvl: a decision, a learned
  // literal, or the first literal of a learned clause whose second literal is false at level lvl.
  ghost predicate Ready(s: Core, nbVars: nat, wl: Lists, wb: Lists, lit: Lit, lvl: nat)
  {
    |s.model| == |s.reason| == nbVars && lit.v < nbVars && |s.info| == |s.clauses|
    && SoundFor(s, nbVars, wl, wb, Elems(s.trail), lvl, s.live - Waiting(s.reason[lit.v]))
    && Unreasoned(s.model, s.reason, lit.v)
    && Pushable(s.model, s.trail, s.clauses, lit, lvl, s.reason[lit.v])
    && LockOk(s, s.reason[lit.v])
    && match s.reason[lit.v]
       case None => true
       case Some(c) => c < |s.clauses| && |s.clauses[c]| >= 2 && s.clauses[c][0] == lit
                       && Level(s.model, s.clauses[c][1].v) == lvl
  }

  lemma Unify(s: Core, nbVars: nat, wl: Lists, wb: Lists, lit: Lit, lvl: nat)
    requires Ready(s, nbVars, wl, wb, lit, lvl)
    ensures var s' := Pushed(s, lit, lvl, s.reason[lit.v]);
            && Sound(s', nbVars, wl, wb, Elems(s.trail), lvl) && s'.reason == s.reason
            && Unreasoned(s'.model, s'.reason, -1)
            && True(s'.model, lit) && Level(s'.model, lit.v) == lvl && Extends(s.model, s'.model)
  {
    var r := s.reason[lit.v];
    var s' := Pushed(s, lit, lvl, r);
    Push(s.model, s.trail, s.reason, s.clauses, lit, lvl, r);
    assert s'.reason == s.reason;
    UnifyCore(s, nbVars, lit, lvl);
    GuardedMono(s.model, s'.model, s.clauses, s.live - Waiting(r), Elems(s.trail));
    UnifyGuarded(s, nbVars, lit, lvl, r);
  }

  lemma UnifyCore(s: Core, nbVars: nat, lit: Lit, lvl: nat)
    requires CoreOk(s, nbVars) && lit.v < nbVars && LockOk(s, s.reason[lit.v])
    requires Pushable(s.model, s.trail, s.clauses, lit, lvl, s.reason[lit.v])
    ensures CoreOk(Pushed(s, lit, lvl, s.reason[lit.v]), nbVars)
  {
    hide Bound, DbOk, Pushable, Extends, LevelsUpTo, True, Level;
    var s' := Pushed(s, lit, lvl, s.reason[lit.v]);
    Push(s.model, s.trail, s.reason, s.clauses, lit, lvl, s.reason[lit.v]);
    forall k | 0 <= k < |s'.trail| && s'.trail[k].v < |s'.reason| ensures LockOk(s', s'.reason[s'.trail[k].v]) {
      assert k < |s.trail| ==> LockOk(s, s.reason[s.trail[k].v]);
    }
  }

  lemma UnifyGuarded(s: Core, nbVars: nat, lit: Lit, lvl: nat, r: Option<nat>)
    requires CoreOk(s, nbVars) && lit.v < nbVars && r == s.reason[lit.v]
    requires Pushable(s.model, s.trail, s.clauses, lit, lvl, r)
    requires r.Some? ==> r.value < |s.clauses| && |s.clauses[r.value]| >= 2 && s.clauses[r.value][0] == lit
                         && Level(s.model, s.clauses[r.value][1].v) == lvl
    requires AllGuarded(s.model[lit.v := SignedLevel(lit, lvl)], s.clauses, s.live - Waiting(r), Elems(s.trail))
    ensures AllGuarded(s.model[lit.v := SignedLevel(lit, lvl)], s.clauses, s.live, Elems(s.trail))
  {
    var m := s.model[lit.v := SignedLevel(lit, lvl)];
    forall c | c in s.live && c < |s.clauses| ensures ClauseGuarded(m, s.clauses[c], Elems(s.trail)) {
      if r == Some(c) {
        assert ClauseOk(s.clauses[c], nbVars);
        FreeNotInTrail(s.model, s.trail, lit);
        assert lit.Neg() !in s.trail;
        assert lit in s.clauses[c] && True(m, lit) && Level(m, lit.v) == lvl;
      } else {
        assert c in s.live - Waiting(r);
      }
    }
  }

  // ----- top-level refutation -----

  // With all bindings at level 1, every literal of the trail follows from the known clauses.
  lemma {:induction false} ReplayTop(f: set<Bag>, s: Core, nbVars: nat, n: nat) returns (steps: seq<Lit>)
    requires CoreOk(s, nbVars) && LevelsUpTo(s.model, s.trail, 1) && Known(f, s) && n <= |s.trail|
    ensures Derives(f, {}, steps) && forall q :: 0 <= q < n ==> s.trail[q] in steps
  {
    if n == 0 {
      return [];
    }
    steps := ReplayTop(f, s, nbVars, n - 1);
    var q := n - 1;
    var l := s.trail[q];
    assert True(s.model, l);
    var t := {} + Elems(steps);
    var c: Bag;
    if s.reason[l.v] == None {
      c := multiset{l};
    } else {
      var e := s.reason[l.v].value;
      ReasonInArena(s, nbVars, q);
      forall k | k in s.clauses[e] && k != l ensures k.Neg() in t {
        EarlierFalse(s, q, e, k);
      }
      ReasonStep(f, s, nbVars, t, q, e);
      c := multiset(s.clauses[e]);
    }
    DerivesSnoc(f, {}, steps, c, l);
    steps := steps + [l];
  }

  // A conflict at level 1 refutes the known clauses by unit propagation alone.
  lemma TopConflict(f: set<Bag>, s: Core, nbVars: nat, c: nat)
    requires CoreOk(s, nbVars) && LevelsUpTo(s.model, s.trail, 1) && Known(f, s) && ConflictAt(s, c, 1)
    ensures Rup(f, multiset{})
  {
    var steps := ReplayTop(f, s, nbVars, |s.trail|);
    forall l | l in multiset(s.clauses[c]) ensures l.Neg() in {} + Elems(steps) {
      FalseInTrail(s.model, s.trail, l);
    }
    assert Negations(multiset{}) == {};
    assert Refutes(f, {}, steps);
  }

  // So whatever is learned from it is accepted.
  lemma TopLearned(f: set<Bag>, s: Core, nbVars: nat, c: nat, learned: Bag)
    requires CoreOk(s, nbVars) && LevelsUpTo(s.model, s.trail, 1) && Known(f, s) && ConflictAt(s, c, 1)
    ensures Rup(f, learned)
  {
    TopConflict(f, s, nbVars, c);
    ConflictingMono(f, f, Negations(multiset{}), Negations(learned));
  }

  // ----- known clauses -----

  lemma KnownGrown(f: set<Bag>, a: Core, b: Core, lvl: nat)
    requires Known(f, a) && Grown(a, b, lvl) && TrailOk(a.model, a.trail) && |a.reason| == |a.model|
    ensures Known(f, b)
  {
    forall p | 0 <= p < |b.trail| && b.trail[p].v < |b.reason| && b.reason[b.trail[p].v] == None
      ensures Level(b.model, b.trail[p].v) == 1 ==> multiset{b.trail[p]} in f
    {
      assert p < |a.trail| && a.trail[p] == b.trail[p] && True(a.model, a.trail[p]);
    }
    forall c | 0 <= c < |b.clauses| ensures multiset(b.clauses[c]) in f {
      assert multiset(a.clauses[c]) == multiset(b.clauses[c]);
    }
  }

  lemma KnownPushed(f: set<Bag>, s: Core, nbVars: nat, lit: Lit, lvl: nat)
    requires Known(f, s) && CoreOk(s, nbVars) && lit.v < nbVars && s.model[lit.v] == 0
    requires s.reason[lit.v] == None && lvl == 1 ==> multiset{lit} in f
    requires lvl >= 1
    ensures Known(f, Pushed(s, lit, lvl, s.reason[lit.v]))
  {
    var s' := Pushed(s, lit, lvl, s.reason[lit.v]);
    FreeNotInTrail(s.model, s.trail, lit);
    forall p | 0 <= p < |s'.trail| && s'.trail[p].v < |s'.reason| && s'.reason[s'.trail[p].v] == None
      ensures Level(s'.model, s'.trail[p].v) == 1 ==> multiset{s'.trail[p]} in f
    {
      assert p < |s.trail| ==> s'.trail[p] == s.trail[p];
    }
  }

  lemma KnownMore(f: set<Bag>, f': set<Bag>, s: Core)
    requires Known(f, s) && f <= f'
    ensures Known(f', s)
  {
  }

  lemma KnownAdded(f: set<Bag>, s: Core, c: Clause, i: ClauseInfo)
    requires Known(f, s) && multiset(c) in f
    ensures Known(f, WithClause(s, c, i))
  {
  }

  // ----- becoming ready -----

  // A free variable is decided one level above everything bound.
  lemma ReadyDecision(s: Core, nbVars: nat, wl: Lists, wb: Lists, lit: Lit, lvl: nat)
    requires Sound(s, nbVars, wl, wb, Elems(s.trail), lvl) && Unreasoned(s.model, s.reason, -1)
    requires lit.v < nbVars && s.model[lit.v] == 0
    ensures Ready(s, nbVars, wl, wb, lit, lvl + 1)
  {
    assert s.live - Waiting(None) == s.live;
  }

  // A learned literal, after everything above level 1 has been undone.
  lemma ReadyUnit(s: Core, nbVars: nat, wl: Lists, wb: Lists, lit: Lit)
    requires Sound(s, nbVars, wl, wb, Elems(s.trail), 1) && Unreasoned(s.model, s.reason, -1)
    requires lit.v < nbVars && s.model[lit.v] == 0
    ensures Ready(s, nbVars, wl, wb, lit, 1)
  {
    assert s.live - Waiting(None) == s.live;
  }

  // The state in which a learned clause is the reason of its pending first literal.
  function Asserted(s: Core, lit: Lit, id: nat): Core
    requires lit.v < |s.reason| && id < |s.info|
  {
    s.(reason := s.reason[lit.v := Some(id)], info := Locked(s.info, id, true))
  }

  // s1 is the state of the conflict at lvl, s2 the same with the learned clause c, s3 after the backjump to
  // the level of its second literal: its first literal is free and all the others are false.
  lemma LearnedUnit(s1: Core, s2: Core, s3: Core, nbVars: nat, c: Clause, lvl: nat, i: nat)
    requires CoreOk(s1, nbVars) && Asserting(s1, lvl, c) && |c| >= 2
    requires s2.model == s1.model && s2.trail == s1.trail && s2.reason == s1.reason
    requires Cut(s2, s3, i, Level(s1.model, c[1].v))
    ensures c[0].v < nbVars && |s3.model| == nbVars && s3.model[c[0].v] == 0
    ensures forall k :: k in c && k != c[0] ==> False(s3.model, k)
    ensures 1 <= Level(s1.model, c[1].v) == Level(s3.model, c[1].v) < lvl
  {
    var b := Level(s1.model, c[1].v);
    assert c[0] in c && c[1] in c;
    FalseInTrail(s1.model, s1.trail, c[0]);
    CutBinding(s2, s3, i, b, c[0].Neg());
    CutBinding(s2, s3, i, b, c[0]);
    forall k | k in c && k != c[0] ensures False(s3.model, k) && Level(s3.model, k.v) == Level(s1.model, k.v) {
      var j :| 0 <= j < |c| && c[j] == k;
      assert Level(s1.model, c[j].v) <= b;
      CutBinding(s2, s3, i, b, k.Neg());
    }
    assert c[1].v != c[0].v;
  }

  lemma ReadyLearned(s: Core, nbVars: nat, wl: Lists, wb: Lists, c: Clause, id: nat, lvl: nat, guarded: set<nat>)
    requires SoundFor(s, nbVars, wl, wb, Elems(s.trail), lvl, guarded) && Unreasoned(s.model, s.reason, -1)
    requires id < |s.clauses| && s.clauses[id] == c && |c| >= 2 && id !in guarded && s.live == guarded + {id}
    requires c[0].v < nbVars && s.model[c[0].v] == 0 && Level(s.model, c[1].v) == lvl >= 1
    requires forall k :: k in c && k != c[0] ==> False(s.model, k)
    ensures |s.reason| == nbVars && id < |s.info|
    ensures Ready(Asserted(s, c[0], id), nbVars, wl, wb, c[0], lvl)
  {
    var s' := Asserted(s, c[0], id);
    assert s'.live - Waiting(Some(id)) == guarded;
    FreeNotInTrail(s.model, s.trail, c[0]);
    hide DbOk, TrailOk, LongOk, BinOk, AllGuarded, LevelsUpTo, Total;
    forall k | 0 <= k < |s'.trail|
      ensures s'.trail[k].v < |s'.reason| && ReasonOk(s'.model, s'.trail, k, s'.reason[s'.trail[k].v], s'.clauses)
      ensures LockOk(s', s'.reason[s'.trail[k].v])
    {
      assert ReasonOk(s.model, s.trail, k, s.reason[s.trail[k].v], s.clauses) && LockOk(s, s.reason[s.trail[k].v]);
    }
    assert c[0] in c;
  }

  lemma BooksIrrelevant(f: set<Bag>, s: Core, lit: Lit, id: nat)
    requires Known(f, s) && lit.v < |s.reason| && id < |s.info| && lit.v < |s.model| && s.model[lit.v] == 0
    requires TrailOk(s.model, s.trail)
    ensures Known(f, Asserted(s, lit, id))
  {
    FreeNotInTrail(s.model, s.trail, lit);
  }

  // ----- deleting a clause -----

  // Removes position j as Go does: the last element takes its place.
  function RemoveAt<T>(ws: seq<T>, j: nat): (r: seq<T>)
    requires j < |ws|
  {
    ws[j := ws[|ws| - 1]][..|ws| - 1]
  }

  lemma RemoveList(db: Db, live: set<nat>, p: Lit, ws: seq<Watcher>, j: nat)
    requires ListOk(db, live, p, ws) && j < |ws|
    ensures ListOk(db, live - {ws[j].clause}, p, RemoveAt(ws, j))
    ensures forall c :: c != ws[j].clause && Watching(ws, c) ==> Watching(RemoveAt(ws, j), c)
  {
    var r, n := RemoveAt(ws, j), |ws|;
    forall i | 0 <= i < |r| ensures LongWatcher(db, live - {ws[j].clause}, p, r[i]) {
      assert LongWatcher(db, live, p, if i == j then ws[n - 1] else ws[i]);
    }
    forall c | c != ws[j].clause && Watching(ws, c) ensures Watching(r, c) {
      var i :| 0 <= i < n && ws[i].clause == c;
      assert r[if i == n - 1 then j else i].clause == c;
    }
  }

  // Both watchers of a long clause are removed, and the clause dies.
  lemma Unwatch(db: Db, live: set<nat>, wl: Lists, c: nat, p: Lit, i: nat, q: Lit, j: nat)
    requires LongOk(db, live, wl) && c < |db| && |db[c]| >= 3 && p in wl && q in wl && p != q
    requires p == db[c][0].Neg() && q == db[c][1].Neg()
    requires i < |wl[p]| && wl[p][i].clause == c && j < |wl[q]| && wl[q][j].clause == c
    ensures LongOk(db, live - {c}, wl[p := RemoveAt(wl[p], i)][q := RemoveAt(wl[q], j)])
  {
    var wl' := wl[p := RemoveAt(wl[p], i)][q := RemoveAt(wl[q], j)];
    assert ListOk(db, live, p, wl[p]) && ListOk(db, live, q, wl[q]);
    RemoveList(db, live, p, wl[p], i);
    RemoveList(db, live, q, wl[q], j);
    forall r | r in wl' ensures ListOk(db, live - {c}, r, wl'[r]) {
      assert ListOk(db, live, r, wl[r]);
      if r != p && r != q {
        assert forall k :: 0 <= k < |wl[r]| ==> LongWatcher(db, live, r, wl[r][k]);
      }
    }
    forall e | e in live - {c} && e < |db| && |db[e]| >= 3 ensures Listed(db, wl', e) {
      assert Listed(db, wl, e);
    }
  }

  // A long clause that is not locked can be deleted: it is the reason of no binding.
  lemma Delete(s: Core, nbVars: nat, wl: Lists, wl': Lists, wb: Lists, done: set<Lit>, lvl: nat, c: nat)
    requires Sound(s, nbVars, wl, wb, done, lvl) && c < |s.clauses| && |s.clauses[c]| >= 3
    requires c < |s.info| && !s.info[c].locked
    requires LongOk(s.clauses, s.live - {c}, wl') && Total(wl', nbVars)
    ensures Sound(s.(live := s.live - {c}), nbVars, wl', wb, done, lvl)
    ensures forall p :: 0 <= p < |s.trail| && s.trail[p].v < |s.reason| ==> s.reason[s.trail[p].v] != Some(c)
  {
    var s' := s.(live := s.live - {c});
    hide LevelsUpTo, Bound;
    forall p | 0 <= p < |s.trail| && s.trail[p].v < |s.reason|
      ensures s.reason[s.trail[p].v] != Some(c) && LockOk(s', s.reason[s.trail[p].v])
    {
      assert LockOk(s, s.reason[s.trail[p].v]);
    }
    forall p, i | p in wb && 0 <= i < |wb[p]| ensures BinWatcher(s.clauses, s'.live, p, wb[p][i]) {
      assert BinWatcher(s.clauses, s.live, p, wb[p][i]);
    }
    forall e | e in s'.live && e < |s.clauses| ensures ClauseGuarded(s.model, s.clauses[e], done) {
      assert ClauseGuarded(s.model, s.clauses[e], done);
    }
  }
}
