// The watched-literal scheme against naive unit propagation: both reach the same literals, and one meets a
// conflict exactly when the other does.
module Refinement {
  import opened Logic
  import opened UnitProp
  import opened Bindings
  import opened Watches
  import opened State
  import opened Learn
  import opened Certificate

  // The clauses being watched, up to the order of their literals.
  ghost function LiveBags(s: Core): set<Bag> { set c | c in s.live && c < |s.clauses| :: multiset(s.clauses[c]) }

  lemma LiveBagsGrown(a: Core, b: Core, lvl: nat)
    requires Grown(a, b, lvl)
    ensures LiveBags(a) == LiveBags(b)
  {
    forall c | c in a.live && c < |a.clauses| ensures multiset(a.clauses[c]) == multiset(b.clauses[c]) {
    }
  }

  lemma ForcedStep(s: Core, nbVars: nat, q: nat)
    requires CoreOk(s, nbVars) && q < |s.trail| && s.trail[q].v < |s.reason| && s.reason[s.trail[q].v].Some?
    ensures exists c :: c in LiveBags(s) && UnitStep(c, Elems(s.trail[..q]), s.trail[q])
  {
    var c := s.reason[s.trail[q].v].value;
    assert LockOk(s, s.reason[s.trail[q].v]);
    forall l | l in s.clauses[c] && l != s.trail[q] ensures l.Neg() in Elems(s.trail[..q]) {
      EarlierFalse(s, q, c, l);
      var r :| 0 <= r < q && s.trail[r] == l.Neg();
      assert s.trail[..q][r] == l.Neg();
    }
    ReasonStep({}, s, nbVars, Elems(s.trail[..q]), q, c);
    assert multiset(s.clauses[c]) in LiveBags(s);
  }

  lemma DerivesNone(f: set<Bag>, s: set<Lit>)
    ensures Derives(f, s, [])
  {
  }

  // The forced literals, in trail order, are unit steps from the literals before them.
  lemma {:induction false} ForcedDerives(s: Core, nbVars: nat, n: nat, m: nat, lvl: nat)
    requires CoreOk(s, nbVars) && ForcedFrom(s, n, lvl) && n <= m <= |s.trail|
    ensures Derives(LiveBags(s), Elems(s.trail[..n]), s.trail[n..m])
    ensures Elems(s.trail[..n]) + Elems(s.trail[n..m]) == Elems(s.trail[..m])
  {
    hide CoreOk, LiveBags, UnitStep, StepAt, Derives;
    if n == m {
      assert s.trail[n..m] == [];
      DerivesNone(LiveBags(s), Elems(s.trail[..n]));
    } else {
      ForcedDerives(s, nbVars, n, m - 1, lvl);
      var q := m - 1;
      ForcedStep(s, nbVars, q);
      var c :| c in LiveBags(s) && UnitStep(c, Elems(s.trail[..q]), s.trail[q]);
      assert s.trail[n..m] == s.trail[n..q] + [s.trail[q]] && s.trail[..m] == s.trail[..q] + [s.trail[q]];
      DerivesSnoc(LiveBags(s), Elems(s.trail[..n]), s.trail[n..q], c, s.trail[q]);
    }
  }

  // A fully propagated state is stable for naive unit propagation.
  lemma PropagatedStable(s: Core, nbVars: nat, wl: Lists, wb: Lists, lvl: nat)
    requires Sound(s, nbVars, wl, wb, Elems(s.trail), lvl) && |s.model| == nbVars
    ensures Stable(LiveBags(s), Elems(s.trail))
  {
    hide Sound, Settled;
    forall b | b in LiveBags(s) ensures Settled(b, Elems(s.trail)) {
      var c :| c in s.live && c < |s.clauses| && b == multiset(s.clauses[c]);
      ClauseSettled(s, nbVars, wl, wb, lvl, c);
    }
  }

  lemma ClauseSettled(s: Core, nbVars: nat, wl: Lists, wb: Lists, lvl: nat, c: nat)
    requires Sound(s, nbVars, wl, wb, Elems(s.trail), lvl) && |s.model| == nbVars && c in s.live && c < |s.clauses|
    ensures Settled(multiset(s.clauses[c]), Elems(s.trail))
  {
    PropagatedTrue(s, nbVars, wl, wb, lvl, c);
    var cl := s.clauses[c];
    if HasTrue(s.model, cl) {
      var l :| l in cl && True(s.model, l);
      FalseInTrail(s.model, s.trail, l);
      assert l in multiset(cl);
    } else {
      FalseInTrail(s.model, s.trail, cl[0]);
      FalseInTrail(s.model, s.trail, cl[1]);
      TwoFirst(cl);
      assert Free(cl[0], Elems(s.trail)) && Free(cl[1], Elems(s.trail));
    }
  }

  lemma TwoFirst(c: Clause)
    requires |c| >= 2
    ensures c[0] in multiset(c) && c[1] in multiset(c) - multiset{c[0]}
  {
    assert c == [c[0]] + [c[1]] + c[2..];
  }

  lemma SuffixDerives(a: Core, b: Core, nbVars: nat, lvl: nat)
    requires Grown(a, b, lvl) && CoreOk(b, nbVars)
    ensures Derives(LiveBags(a), Elems(a.trail), b.trail[|a.trail|..])
    ensures Elems(a.trail) + Elems(b.trail[|a.trail|..]) == Elems(b.trail)
  {
    LiveBagsGrown(a, b, lvl);
    ForcedDerives(b, nbVars, |a.trail|, |b.trail|, lvl);
    assert b.trail[..|a.trail|] == a.trail && b.trail[..|b.trail|] == b.trail;
  }

  // Propagation from trail a.trail ended in b without conflict: its literals are the least fixpoint of naive
  // unit propagation, and no order of unit steps meets a conflict.
  lemma FixpointReached(a: Core, b: Core, nbVars: nat, wl: Lists, wb: Lists, lvl: nat)
    requires Grown(a, b, lvl) && Sound(b, nbVars, wl, wb, Elems(b.trail), lvl) && |b.model| == nbVars
    ensures Stable(LiveBags(a), Elems(b.trail)) && Elems(a.trail) <= Elems(b.trail) && |a.trail| <= |b.trail|
    ensures Derives(LiveBags(a), Elems(a.trail), b.trail[|a.trail|..])
    ensures !Conflicting(LiveBags(a), Elems(a.trail))
  {
    LiveBagsGrown(a, b, lvl);
    PropagatedStable(b, nbVars, wl, wb, lvl);
    SuffixDerives(a, b, nbVars, lvl);
    StableNotConflicting(LiveBags(a), Elems(a.trail), Elems(b.trail));
  }

  // Propagation that stops at a false clause is a refutation for naive unit propagation too.
  lemma ConflictReached(a: Core, b: Core, nbVars: nat, c: nat, lvl: nat)
    requires Grown(a, b, lvl) && CoreOk(b, nbVars) && ConflictAt(b, c, lvl)
    ensures Conflicting(LiveBags(a), Elems(a.trail)) && |a.trail| <= |b.trail|
  {
    SuffixDerives(a, b, nbVars, lvl);
    LiveBagsGrown(a, b, lvl);
    hide Derives, Grown, DbOk, LocksOk, ReasonsOk;
    var cl := multiset(b.clauses[c]);
    assert cl in LiveBags(b);
    forall l | l in cl ensures l.Neg() in Elems(b.trail) {
      FalseInTrail(b.model, b.trail, l);
    }
    assert Falsified(cl, Elems(b.trail));
    assert Refutes(LiveBags(a), Elems(a.trail), b.trail[|a.trail|..]);
  }
}
