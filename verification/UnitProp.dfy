// Naive unit propagation: the reference that both the solver's watched literals and the
// certificate checker are measured against.
module UnitProp {
  import opened Logic

  // u is the only literal occurrence of c that s leaves unfalsified.
  ghost predicate UnitStep(c: Bag, s: set<Lit>, u: Lit)
  {
    u in c && forall l :: l in c - multiset{u} ==> l.Neg() in s
  }

  ghost predicate Falsified(c: Bag, s: set<Lit>) { forall l :: l in c ==> l.Neg() in s }

  ghost predicate StepAt(f: set<Bag>, s: set<Lit>, steps: seq<Lit>, i: nat)
    requires i < |steps|
  {
    exists c :: c in f && UnitStep(c, s + Elems(steps[..i]), steps[i])
  }

  // Every literal of `steps` is a unit consequence of s and of the steps before it.
  ghost predicate Derives(f: set<Bag>, s: set<Lit>, steps: seq<Lit>)
  {
    forall i :: 0 <= i < |steps| ==> StepAt(f, s, steps, i)
  }

  // Some order of unit steps from s reaches a falsified clause.
  ghost predicate Refutes(f: set<Bag>, s: set<Lit>, steps: seq<Lit>)
  {
    Derives(f, s, steps) && exists c :: c in f && Falsified(c, s + Elems(steps))
  }

  ghost predicate Conflicting(f: set<Bag>, s: set<Lit>) { exists steps :: Refutes(f, s, steps) }

  ghost predicate Consistent(s: set<Lit>) { forall l :: l in s ==> l.Neg() !in s }

  ghost predicate Free(l: Lit, s: set<Lit>) { l !in s && l.Neg() !in s }

  // Nothing left to propagate: c is satisfied or keeps two free literal occurrences.
  ghost predicate Settled(c: Bag, s: set<Lit>)
  {
    (exists l :: l in c && l in s)
    || (exists l, l' :: l in c && l' in c - multiset{l} && Free(l, s) && Free(l', s))
  }

  ghost predicate Stable(f: set<Bag>, s: set<Lit>) { forall c :: c in f ==> Settled(c, s) }

  // The clause is accepted as a reverse-unit-propagation consequence.
  ghost predicate Rup(f: set<Bag>, c: Bag) { Conflicting(f, Negations(c)) }

  ghost function Negations(c: Bag): set<Lit> { set l | l in c :: l.Neg() }

  lemma UnitStepMono(c: Bag, s: set<Lit>, s': set<Lit>, u: Lit)
    requires UnitStep(c, s, u) && s <= s'
    ensures UnitStep(c, s', u)
  {
  }

  lemma DerivesMono(f: set<Bag>, f': set<Bag>, s: set<Lit>, s': set<Lit>, steps: seq<Lit>)
    requires Derives(f, s, steps) && f <= f' && s <= s'
    ensures Derives(f', s', steps)
  {
    forall i | 0 <= i < |steps| ensures StepAt(f', s', steps, i) {
      assert StepAt(f, s, steps, i);
      var c :| c in f && UnitStep(c, s + Elems(steps[..i]), steps[i]);
      assert UnitStep(c, s' + Elems(steps[..i]), steps[i]);
    }
  }

  // Deriving more never loses a refutation.
  lemma ConflictingMono(f: set<Bag>, f': set<Bag>, s: set<Lit>, s': set<Lit>)
    requires Conflicting(f, s) && f <= f' && s <= s'
    ensures Conflicting(f', s')
  {
    var steps :| Refutes(f, s, steps);
    DerivesMono(f, f', s, s', steps);
    var c :| c in f && Falsified(c, s + Elems(steps));
    assert Falsified(c, s' + Elems(steps));
    assert Refutes(f', s', steps);
  }

  lemma DerivesSnoc(f: set<Bag>, s: set<Lit>, steps: seq<Lit>, c: Bag, u: Lit)
    requires Derives(f, s, steps) && c in f && UnitStep(c, s + Elems(steps), u)
    ensures Derives(f, s, steps + [u])
    ensures Elems(steps + [u]) == Elems(steps) + {u}
  {
    var steps' := steps + [u];
    forall i | 0 <= i < |steps'| ensures StepAt(f, s, steps', i) {
      assert steps'[..i] == steps[..i];
      if i < |steps| {
        assert StepAt(f, s, steps, i);
      } else {
        assert steps[..i] == steps;
      }
    }
  }

  // In a stable consistent set a unit step adds nothing.
  lemma SettledUnit(c: Bag, t: set<Lit>, u: Lit)
    requires UnitStep(c, t, u) && Settled(c, t) && Consistent(t)
    ensures u in t
  {
    assert forall l :: l in c && l != u ==> l in c - multiset{u};
  }

  // Any stable consistent set that starts from s contains everything derivable from s.
  lemma {:induction false} StableContains(f: set<Bag>, s: set<Lit>, steps: seq<Lit>, t: set<Lit>, n: nat)
    requires Derives(f, s, steps) && s <= t && Stable(f, t) && Consistent(t) && n <= |steps|
    ensures Elems(steps[..n]) <= t
  {
    if n > 0 {
      StableContains(f, s, steps, t, n - 1);
      assert StepAt(f, s, steps, n - 1);
      var u := steps[n - 1];
      var c :| c in f && UnitStep(c, s + Elems(steps[..n - 1]), u);
      UnitStepMono(c, s + Elems(steps[..n - 1]), t, u);
      SettledUnit(c, t, u);
      assert steps[..n] == steps[..n - 1] + [u];
    }
  }

  // Order does not matter: one stable outcome without conflict rules out every refutation.
  lemma StableNotConflicting(f: set<Bag>, s: set<Lit>, t: set<Lit>)
    requires s <= t && Stable(f, t) && Consistent(t)
    ensures !Conflicting(f, s)
  {
    forall steps | Derives(f, s, steps) ensures !Refutes(f, s, steps) {
      StableContains(f, s, steps, t, |steps|);
      assert steps[..|steps|] == steps;
      forall c | c in f ensures !Falsified(c, s + Elems(steps)) {
        assert Settled(c, t);
      }
    }
  }

  // Unit steps are sound for every assignment that agrees with s.
  lemma {:induction false} DerivesSound(f: set<Bag>, s: set<Lit>, steps: seq<Lit>, a: Assignment, n: nat)
    requires Derives(f, s, steps) && Models(a, f) && AllHold(s, a) && n <= |steps|
    ensures AllHold(Elems(steps[..n]), a)
  {
    if n > 0 {
      DerivesSound(f, s, steps, a, n - 1);
      assert StepAt(f, s, steps, n - 1);
      var u := steps[n - 1];
      var c :| c in f && UnitStep(c, s + Elems(steps[..n - 1]), u);
      var l :| l in c && Holds(l, a);
      assert l != u ==> l in c - multiset{u};
      assert steps[..n] == steps[..n - 1] + [u];
    }
  }

  lemma ConflictingSound(f: set<Bag>, s: set<Lit>, a: Assignment)
    requires Conflicting(f, s) && Models(a, f)
    ensures !AllHold(s, a)
  {
    var steps :| Refutes(f, s, steps);
    assert steps[..|steps|] == steps;
    var c :| c in f && Falsified(c, s + Elems(steps));
    var l :| l in c && Holds(l, a);
    assert l.Neg() in s + Elems(steps);
    if AllHold(s, a) {
      DerivesSound(f, s, steps, a, |steps|);
    }
  }

  lemma RupEntails(f: set<Bag>, c: Bag)
    requires Rup(f, c)
    ensures Entails(f, c)
  {
    forall a: Assignment | Models(a, f) ensures Sat(c, a) {
      ConflictingSound(f, Negations(c), a);
      var l :| l in Negations(c) && !Holds(l, a);
      assert Holds(l.Neg(), a);
    }
  }
}
