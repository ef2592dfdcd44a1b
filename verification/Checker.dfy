// The certificate checker: explain/problem.go and explain/check.go.
module Checker {
  import opened Logic
  import opened UnitProp

  // For each variable 0 if it is unbound, 1 if true, -1 if false.
  type Units = seq<int>

  ghost predicate WellFormed(units: Units) { forall v :: 0 <= v < |units| ==> -1 <= units[v] <= 1 }

  ghost predicate InRange(c: Clause, nbVars: nat) { forall i :: 0 <= i < |c| ==> c[i].v < nbVars }

  ghost function UnitSet(units: Units): set<Lit>
  {
    set v | 0 <= v < |units| && units[v] != 0 :: Lit(v, units[v] > 0)
  }

  ghost function FreeVars(units: Units): set<int> { set v | 0 <= v < |units| && units[v] == 0 }

  // The bindings after the negation of each literal of c has been recorded, in order.
  ghost function Assume(units: Units, c: Clause): (r: Units)
    requires InRange(c, |units|)
    ensures |r| == |units|
    ensures WellFormed(units) ==> WellFormed(r)
  {
    if c == [] then units
    else var l := c[|c| - 1]; Assume(units, c[..|c| - 1])[l.v := if l.pos then -1 else 1]
  }

  // The original clauses that are tagged.
  ghost function TaggedOriginal(clauses: seq<Clause>, tagged: seq<bool>): set<Bag>
  {
    set i | 0 <= i < |tagged| && i < |clauses| && tagged[i] :: multiset(clauses[i])
  }

  // The clauses accepted from the certificate, which follow the original ones.
  ghost function Learned(clauses: seq<Clause>, nbClauses: nat): set<Bag>
  {
    set i | nbClauses <= i < |clauses| :: multiset(clauses[i])
  }

  ghost function Usable(clauses: seq<Clause>, tagged: seq<bool>): set<Bag>
  {
    TaggedOriginal(clauses, tagged) + Learned(clauses, |tagged|)
  }

  ghost predicate Grows(before: seq<bool>, after: seq<bool>)
  {
    |before| == |after| && forall i :: 0 <= i < |before| && before[i] ==> after[i]
  }

  // Clause c gives one of the steps, a literal not bound before.
  ghost predicate Steps(c: Bag, s: set<Lit>, steps: seq<Lit>)
  {
    exists j :: 0 <= j < |steps| && StepsAt(c, s, steps, j)
  }

  ghost predicate StepsAt(c: Bag, s: set<Lit>, steps: seq<Lit>, j: nat)
    requires j < |steps|
  {
    UnitStep(c, s + Elems(steps[..j]), steps[j]) && Free(steps[j], s + Elems(steps[..j]))
  }

  // The clauses tagged on the way from tagged0 give steps.
  ghost predicate TagsStep(clauses: seq<Clause>, tagged0: seq<bool>, tagged: seq<bool>, s: set<Lit>, steps: seq<Lit>)
  {
    |tagged0| == |tagged| <= |clauses|
    && forall i :: 0 <= i < |tagged| && tagged[i] ==> tagged0[i] || Steps(multiset(clauses[i]), s, steps)
  }

  // A clause was used in a refutation: it gives one of its steps, or is falsified at its end.
  ghost predicate UsedIn(c: Bag, s: set<Lit>, steps: seq<Lit>) { Steps(c, s, steps) || Falsified(c, s + Elems(steps)) }

  ghost predicate TagsUsed(clauses: seq<Clause>, tagged0: seq<bool>, tagged: seq<bool>, s: set<Lit>, steps: seq<Lit>)
  {
    |tagged0| == |tagged| <= |clauses| && Refutes(Bags(clauses), s, steps)
    && forall i :: 0 <= i < |tagged| && tagged[i] ==> tagged0[i] || UsedIn(multiset(clauses[i]), s, steps)
  }

  // Every clause tagged since tagged0 was used in one refutation from s.
  ghost predicate TagsRefute(clauses: seq<Clause>, tagged0: seq<bool>, tagged: seq<bool>, s: set<Lit>)
  {
    exists steps :: TagsUsed(clauses, tagged0, tagged, s, steps)
  }

  lemma StepsMore(c: Bag, s: set<Lit>, steps: seq<Lit>, u: Lit)
    ensures Steps(c, s, steps) ==> Steps(c, s, steps + [u])
    ensures UnitStep(c, s + Elems(steps), u) && Free(u, s + Elems(steps)) ==> Steps(c, s, steps + [u])
  {
    var more := steps + [u];
    assert more[..|steps|] == steps && more[|steps|] == u;
    if Steps(c, s, steps) {
      var j :| 0 <= j < |steps| && StepsAt(c, s, steps, j);
      assert more[..j] == steps[..j] && more[j] == steps[j];
      assert StepsAt(c, s, more, j);
    }
    if UnitStep(c, s + Elems(steps), u) && Free(u, s + Elems(steps)) {
      assert StepsAt(c, s, more, |steps|);
    }
  }

  // Every initial binding comes from a unit clause of the problem.
  ghost predicate UnitsFromClauses(clauses: seq<Clause>, nbClauses: nat, units: Units)
    requires nbClauses <= |clauses|
  {
    forall v :: 0 <= v < |units| && units[v] != 0 ==> [Lit(v, units[v] > 0)] in clauses[..nbClauses]
  }

  // Replaying a certificate: each clause is refuted, once negated, by the problem and the clauses before it.
  ghost predicate Accepts(clauses: seq<Clause>, units: Units, cert: seq<Clause>)
  {
    forall k :: 0 <= k < |cert| ==> AcceptsAt(clauses, units, cert, k)
  }

  ghost predicate AcceptsAt(clauses: seq<Clause>, units: Units, cert: seq<Clause>, k: nat)
    requires k < |cert|
  {
    InRange(cert[k], |units|) && Conflicting(Bags(clauses + cert[..k]), UnitSet(Assume(units, cert[k])))
  }

  lemma UsableInProblem(clauses: seq<Clause>, tagged: seq<bool>)
    ensures Usable(clauses, tagged) <= Bags(clauses)
  {
    forall c | c in Usable(clauses, tagged) ensures c in Bags(clauses) {
      var i :| 0 <= i < |clauses| && c == multiset(clauses[i]);
      BagsOf(clauses, i);
    }
  }

  class Problem {
    const nbVars: nat
    var clauses: seq<Clause>
    var nbClauses: nat
    var units: Units
    var tagged: seq<bool>

    ghost predicate Valid()
      reads this
    {
      nbClauses <= |clauses| && |units| == nbVars && WellFormed(units)
      && forall i :: 0 <= i < |clauses| ==> InRange(clauses[i], nbVars)
    }

    constructor (nbVars: nat, clauses: seq<Clause>, units: Units)
      requires |units| == nbVars && WellFormed(units)
      requires forall i :: 0 <= i < |clauses| ==> InRange(clauses[i], nbVars)
      ensures Valid() && this.clauses == clauses && nbClauses == |clauses| && this.units == units
      ensures this.nbVars == nbVars
    {
      this.nbVars, this.clauses, this.nbClauses, this.units, this.tagged := nbVars, clauses, |clauses|, units, [];
    }

    method InitTagged()
      requires Valid() && nbClauses == |clauses|
      modifies this`tagged
      ensures |tagged| == nbClauses
      ensures forall i :: 0 <= i < nbClauses ==> (tagged[i] <==> |clauses[i]| == 1)
    {
      tagged := seq(nbClauses, _ => false);
      for i := 0 to |clauses|
        invariant |tagged| == nbClauses
        invariant forall k :: 0 <= k < i ==> (tagged[k] <==> |clauses[k]| == 1)
      {
        tagged := tagged[i := |clauses[i]| == 1];
      }
    }

    // One clause under the current bindings, reading no further than its first true literal or
    // its second unbound one.
    method Scan(clause: Clause) returns (sat: bool, unbound: nat, unit: Lit)
      requires Valid() && InRange(clause, nbVars)
      ensures sat ==> exists l :: l in clause && l in UnitSet(units)
      ensures !sat && unbound == 0 ==> Falsified(multiset(clause), UnitSet(units))
      ensures !sat && unbound == 1 ==> UnitStep(multiset(clause), UnitSet(units), unit) && Free(unit, UnitSet(units))
      ensures !sat && unbound > 1 ==> Settled(multiset(clause), UnitSet(units))
      ensures unbound == 1 ==> unit.v < nbVars
    {
      hide Falsified, UnitStep, Settled, Free, UnitSet;
      sat, unbound, unit := false, 0, Lit(0, true);
      ghost var s := UnitSet(units);
      ScanNone(s);
      assert clause[..0] == [];
      for i := 0 to |clause|
        invariant unbound <= 1 && !sat
        invariant unbound == 0 ==> Falsified(multiset(clause[..i]), s)
        invariant unbound == 1 ==> UnitStep(multiset(clause[..i]), s, unit) && Free(unit, s) && unit.v < nbVars
      {
        var lit := clause[i];
        var binding := units[lit.v];
        BindingOf(units, lit);
        ScanNext(clause, i, s);
        if binding == 0 {
          unbound := unbound + 1;
          if unbound == 1 {
            unit := lit;
          } else {
            TwoFree(clause, i, unit, s);
            return;
          }
        } else if (binding > 0) == lit.pos {
          sat := true;
          return;
        }
      }
      assert clause[..|clause|] == clause;
    }

    static lemma BindingOf(units: Units, l: Lit)
      requires l.v < |units|
      ensures units[l.v] == 0 <==> Free(l, UnitSet(units))
      ensures units[l.v] != 0 && (units[l.v] > 0) == l.pos <==> l in UnitSet(units)
      ensures units[l.v] != 0 && (units[l.v] > 0) != l.pos <==> l.Neg() in UnitSet(units)
    {
      var bound := Lit(l.v, units[l.v] > 0);
      assert bound == l || bound == l.Neg();
      assert units[l.v] != 0 ==> bound in UnitSet(units);
    }

    static lemma ScanNone(s: set<Lit>)
      ensures Falsified(multiset([]), s)
    {
    }

    // Reading a false literal keeps what is known of the prefix; a free one after a false prefix is its unit.
    static lemma ScanNext(clause: Clause, i: nat, s: set<Lit>)
      requires i < |clause|
      ensures var l := clause[i]; var before, after := multiset(clause[..i]), multiset(clause[..i + 1]);
              && (Falsified(before, s) && l.Neg() in s ==> Falsified(after, s))
              && (Falsified(before, s) ==> UnitStep(after, s, l))
              && (l.Neg() in s ==> forall u :: UnitStep(before, s, u) ==> UnitStep(after, s, u))
    {
      assert clause[..i + 1] == clause[..i] + [clause[i]];
    }

    static lemma TwoFree(clause: Clause, i: nat, unit: Lit, s: set<Lit>)
      requires i < |clause| && UnitStep(multiset(clause[..i]), s, unit)
      requires Free(unit, s) && Free(clause[i], s)
      ensures Settled(multiset(clause), s)
    {
      assert clause == clause[..i] + [clause[i]] + clause[i + 1..];
      assert multiset(clause) == multiset(clause[..i]) + multiset{clause[i]} + multiset(clause[i + 1..]);
      assert clause[i] in multiset(clause) - multiset{unit};
    }

    // One clause of a propagation pass: nothing new, a conflict, or a binding forced by the clause.
    method Visit(i: nat, done: seq<bool>, ghost tagged0: seq<bool>, ghost s0: set<Lit>, ghost steps: seq<Lit>)
      returns (done': seq<bool>, conflict: bool, bound: bool, ghost steps': seq<Lit>)
      requires Valid() && |tagged| == nbClauses && i < |clauses| && |done| == |clauses|
      requires Run(clauses, tagged0, tagged, units, done, s0, steps)
      modifies this`units, this`tagged
      ensures Valid() && |tagged| == nbClauses && |done'| == |clauses|
      ensures conflict ==> Grows(tagged0, tagged)
      ensures conflict ==> Conflicting(Usable(clauses, tagged), s0) && Conflicting(Bags(clauses), s0)
      ensures conflict ==> TagsRefute(clauses, tagged0, tagged, s0)
      ensures !conflict ==> Run(clauses, tagged0, tagged, units, done', s0, steps')
      ensures bound ==> !conflict && FreeVars(units) < FreeVars(old(units))
      ensures !bound && !conflict ==> units == old(units) && Settled(multiset(clauses[i]), UnitSet(units))
    {
      hide Run, Derives, UnitSet, FreeVars, Usable, UnitStep, Falsified, Settled, Conflicting, Free, Grows, TagsRefute;
      done', conflict, bound, steps' := done, false, false, steps;
      if done[i] {
        SettledByMark(clauses, tagged0, tagged, units, done, s0, steps, i);
        return;
      }
      var sat, unbound, unit := Scan(clauses[i]);
      ghost var before := tagged;
      if sat {
        MarkSat(clauses, tagged0, tagged, units, done, s0, steps, i);
        done' := done[i := true];
      } else if unbound == 0 {
        if i < nbClauses {
          tagged := tagged[i := true];
        }
        ConflictFound(clauses, tagged0, before, tagged, units, done, s0, steps, i);
        conflict := true;
      } else if unbound == 1 {
        units := units[unit.v := if unit.pos then 1 else -1];
        done' := done[i := true];
        if i < nbClauses {
          tagged := tagged[i := true];
        }
        bound := true;
        UnitFound(clauses, tagged0, before, tagged, old(units), units, done, done', s0, steps, i, unit);
        steps' := steps + [unit];
      }
    }

    // Unit propagation to a fixpoint or to a falsified clause, tagging the original clauses it uses.
    method Unsat() returns (r: bool)
      requires Valid() && |tagged| == nbClauses
      modifies this`units, this`tagged
      ensures Valid() && Grows(old(tagged), tagged) && |tagged| == nbClauses
      ensures r <==> Conflicting(Bags(clauses), UnitSet(old(units)))
      ensures r ==> Conflicting(Usable(clauses, tagged), UnitSet(old(units)))
      ensures r ==> TagsRefute(clauses, old(tagged), tagged, UnitSet(old(units)))
      ensures !r ==> Stable(Bags(clauses), UnitSet(units)) && UnitSet(old(units)) <= UnitSet(units)
    {
      ghost var s0, tagged0 := UnitSet(units), tagged;
      ghost var steps: seq<Lit> := [];
      var done := seq(|clauses|, _ => false);
      RunStart(clauses, tagged, units, done);
      hide Run, SettledUpTo, Derives, UnitSet, FreeVars, Usable, Settled, Stable, Conflicting, Grows, TagsRefute;
      var modified := true;
      while modified
        invariant Valid() && |done| == |clauses| && |tagged| == nbClauses
        invariant Run(clauses, tagged0, tagged, units, done, s0, steps)
        invariant !modified ==> SettledUpTo(clauses, UnitSet(units), |clauses|)
        decreases FreeVars(units), modified
      {
        modified := false;
        ghost var units0 := units;
        for i := 0 to |clauses|
          invariant Valid() && |done| == |clauses| && |tagged| == nbClauses
          invariant Run(clauses, tagged0, tagged, units, done, s0, steps)
          invariant if modified then FreeVars(units) < FreeVars(units0) else units == units0
          invariant !modified ==> SettledUpTo(clauses, UnitSet(units), i)
        {
          var conflict, bound;
          done, conflict, bound, steps := Visit(i, done, tagged0, s0, steps);
          if conflict {
            return true;
          }
          modified := modified || bound;
        }
      }
      RunEnd(clauses, tagged0, tagged, units, done, s0, steps);
      return false;
    }

    // What a run of propagation keeps: the bindings are the initial ones plus steps derived from the usable
    // clauses alone, and a clause marked as done holds a true literal.
    static ghost predicate Run(clauses: seq<Clause>, tagged0: seq<bool>, tagged: seq<bool>, units: Units,
                               done: seq<bool>, s0: set<Lit>, steps: seq<Lit>)
    {
      |done| == |clauses| && |tagged0| <= |clauses| && Grows(tagged0, tagged)
      && Derives(Usable(clauses, tagged), s0, steps) && UnitSet(units) == s0 + Elems(steps)
      && TagsStep(clauses, tagged0, tagged, s0, steps)
      && forall i :: 0 <= i < |done| && done[i] ==> exists l :: l in clauses[i] && l in UnitSet(units)
    }

    static lemma RunStart(clauses: seq<Clause>, tagged: seq<bool>, units: Units, done: seq<bool>)
      requires |tagged| <= |clauses| && done == seq(|clauses|, _ => false)
      ensures Run(clauses, tagged, tagged, units, done, UnitSet(units), [])
    {
      var none: seq<Lit> := [];
      assert Elems(none) == {};
    }

    static ghost predicate SettledUpTo(clauses: seq<Clause>, s: set<Lit>, n: nat)
    {
      n <= |clauses| && forall k :: 0 <= k < n ==> Settled(multiset(clauses[k]), s)
    }

    static lemma RunEnd(clauses: seq<Clause>, tagged0: seq<bool>, tagged: seq<bool>, units: Units,
                        done: seq<bool>, s0: set<Lit>, steps: seq<Lit>)
      requires Run(clauses, tagged0, tagged, units, done, s0, steps)
      requires SettledUpTo(clauses, UnitSet(units), |clauses|)
      ensures Grows(tagged0, tagged) && s0 <= UnitSet(units)
      ensures Stable(Bags(clauses), UnitSet(units)) && !Conflicting(Bags(clauses), s0)
    {
      assert Stable(Bags(clauses), UnitSet(units));
      StableNotConflicting(Bags(clauses), s0, UnitSet(units));
    }

    static lemma SettledByMark(clauses: seq<Clause>, tagged0: seq<bool>, tagged: seq<bool>, units: Units,
                               done: seq<bool>, s0: set<Lit>, steps: seq<Lit>, i: nat)
      requires Run(clauses, tagged0, tagged, units, done, s0, steps) && i < |done| && done[i]
      ensures Settled(multiset(clauses[i]), UnitSet(units))
    {
      SettledBySat(clauses[i], UnitSet(units));
    }

    static lemma MarkSat(clauses: seq<Clause>, tagged0: seq<bool>, tagged: seq<bool>, units: Units,
                         done: seq<bool>, s0: set<Lit>, steps: seq<Lit>, i: nat)
      requires Run(clauses, tagged0, tagged, units, done, s0, steps) && i < |done|
      requires exists l :: l in clauses[i] && l in UnitSet(units)
      ensures Run(clauses, tagged0, tagged, units, done[i := true], s0, steps)
      ensures Settled(multiset(clauses[i]), UnitSet(units))
    {
      SettledBySat(clauses[i], UnitSet(units));
    }

    static lemma ConflictFound(clauses: seq<Clause>, tagged0: seq<bool>, before: seq<bool>, tagged: seq<bool>,
                               units: Units, done: seq<bool>, s0: set<Lit>, steps: seq<Lit>, i: nat)
      requires Run(clauses, tagged0, before, units, done, s0, steps) && i < |clauses|
      requires tagged == if i < |before| then before[i := true] else before
      requires Falsified(multiset(clauses[i]), UnitSet(units))
      ensures Grows(tagged0, tagged)
      ensures Conflicting(Usable(clauses, tagged), s0) && Conflicting(Bags(clauses), s0)
      ensures TagsRefute(clauses, tagged0, tagged, s0)
    {
      DerivesMono(Usable(clauses, before), Usable(clauses, tagged), s0, s0, steps);
      assert multiset(clauses[i]) in Usable(clauses, tagged);
      assert Refutes(Usable(clauses, tagged), s0, steps);
      UsableInProblem(clauses, tagged);
      ConflictingMono(Usable(clauses, tagged), Bags(clauses), s0, s0);
      DerivesMono(Usable(clauses, tagged), Bags(clauses), s0, s0, steps);
      hide Usable, Conflicting, Derives, Falsified, Steps, UnitSet;
      assert TagsUsed(clauses, tagged0, tagged, s0, steps);
    }

    static lemma UnitFound(clauses: seq<Clause>, tagged0: seq<bool>, before: seq<bool>, tagged: seq<bool>,
                           unitsBefore: Units, units: Units, doneBefore: seq<bool>, done: seq<bool>,
                           s0: set<Lit>, steps: seq<Lit>, i: nat, unit: Lit)
      requires Run(clauses, tagged0, before, unitsBefore, doneBefore, s0, steps) && i < |clauses|
      requires tagged == if i < |before| then before[i := true] else before
      requires UnitStep(multiset(clauses[i]), UnitSet(unitsBefore), unit) && Free(unit, UnitSet(unitsBefore))
      requires unit.v < |unitsBefore| && units == unitsBefore[unit.v := if unit.pos then 1 else -1]
      requires done == doneBefore[i := true]
      ensures Run(clauses, tagged0, tagged, units, done, s0, steps + [unit])
      ensures FreeVars(units) < FreeVars(unitsBefore)
    {
      Bind(unitsBefore, units, unit);
      DerivesMono(Usable(clauses, before), Usable(clauses, tagged), s0, s0, steps);
      assert multiset(clauses[i]) in Usable(clauses, tagged);
      DerivesSnoc(Usable(clauses, tagged), s0, steps, multiset(clauses[i]), unit);
      TagsStepMore(clauses, tagged0, before, tagged, s0, steps, i, unit);
      hide Usable, Derives, TagsStep, UnitStep;
      forall k | 0 <= k < |done| && done[k] ensures exists l :: l in clauses[k] && l in UnitSet(units) {
        if k == i {
          assert unit in clauses[i];
        } else {
          var l :| l in clauses[k] && l in UnitSet(unitsBefore);
        }
      }
    }

    static lemma TagsStepMore(clauses: seq<Clause>, tagged0: seq<bool>, before: seq<bool>, tagged: seq<bool>, s0: set<Lit>,
                              steps: seq<Lit>, i: nat, unit: Lit)
      requires TagsStep(clauses, tagged0, before, s0, steps) && i < |clauses|
      requires tagged == if i < |before| then before[i := true] else before
      requires UnitStep(multiset(clauses[i]), s0 + Elems(steps), unit) && Free(unit, s0 + Elems(steps))
      ensures TagsStep(clauses, tagged0, tagged, s0, steps + [unit])
    {
      hide Steps;
      forall k | 0 <= k < |tagged| && tagged[k] ensures tagged0[k] || Steps(multiset(clauses[k]), s0, steps + [unit]) {
        StepsMore(multiset(clauses[k]), s0, steps, unit);
      }
    }

    static lemma SettledBySat(clause: Clause, s: set<Lit>)
      requires exists l :: l in clause && l in s
      ensures Settled(multiset(clause), s)
    {
      var l :| l in clause && l in s;
      assert l in multiset(clause);
    }

    static lemma Bind(before: Units, after: Units, unit: Lit)
      requires unit.v < |before| && Free(unit, UnitSet(before))
      requires after == before[unit.v := if unit.pos then 1 else -1]
      ensures UnitSet(after) == UnitSet(before) + {unit}
      ensures FreeVars(after) < FreeVars(before)
    {
      BindingOf(before, unit);
      assert after[unit.v] != 0;
      forall l | l in UnitSet(before) + {unit} ensures l in UnitSet(after) {
        assert after[l.v] != 0 && l == Lit(l.v, after[l.v] > 0);
      }
      assert unit.v in FreeVars(before) && unit.v !in FreeVars(after);
    }

    // Is the clause a consequence by reverse unit propagation? The bindings are restored.
    method UnsatClause(clause: Clause) returns (r: bool)
      requires Valid() && |tagged| == nbClauses && InRange(clause, nbVars)
      modifies this`units, this`tagged
      ensures Valid() && units == old(units) && Grows(old(tagged), tagged) && |tagged| == nbClauses
      ensures r <==> Conflicting(Bags(clauses), UnitSet(Assume(units, clause)))
      ensures r ==> Conflicting(Usable(clauses, tagged), UnitSet(Assume(units, clause)))
      ensures r ==> TagsRefute(clauses, old(tagged), tagged, UnitSet(Assume(units, clause)))
    {
      var oldUnits := units;
      for i := 0 to |clause|
        invariant Valid() && |tagged| == nbClauses
        invariant units == Assume(oldUnits, clause[..i]) && tagged == old(tagged)
      {
        assert clause[..i + 1][..i] == clause[..i];
        units := units[clause[i].v := if clause[i].pos then -1 else 1];
      }
      assert clause[..|clause|] == clause;
      hide Conflicting, UnitSet, Bags, Usable, Grows, Stable, TagsRefute;
      r := Unsat();
      units := oldUnits;
    }

    // Replays a whole certificate. The accepted clauses are dropped again on return.
    method CheckCertificate(cert: seq<Clause>) returns (valid: bool)
      requires Valid() && nbClauses == |clauses| && UnitsFromClauses(clauses, nbClauses, units)
      requires forall k :: 0 <= k < |cert| ==> InRange(cert[k], nbVars)
      modifies this
      ensures Valid() && clauses == old(clauses) && units == old(units) && nbClauses == old(nbClauses)
      ensures |tagged| == nbClauses
      ensures valid <==> Accepts(clauses, units, cert)
      ensures valid ==> Certified(clauses, tagged, cert) && AllUsed(clauses, units, cert, tagged)
    {
      hide AllUsed, TagsRefute, Certified, Accepts, UnitsFromClauses, Grows, Usable, Conflicting, UnitSet, Assume, UnitsTagged;
      ghost var originals := clauses;
      InitTagged();
      UnitsAreTagged(originals, tagged, units);
      CertifiedNone(originals, tagged, units);
      UsedNone(originals, tagged, units);
      assert cert[..0] == [];
      for k := 0 to |cert|
        invariant Valid() && units == old(units) && nbClauses == |originals| && |tagged| == nbClauses
        invariant clauses == originals + cert[..k]
        invariant UnitsTagged(originals, tagged, units) && Accepts(originals, units, cert[..k])
        invariant Certified(originals, tagged, cert[..k]) && AllUsed(originals, units, cert[..k], tagged)
      {
        ghost var before := tagged;
        var ok := UnsatClause(cert[k]);
        AcceptsNext(originals, units, cert, k);
        if !ok {
          Restore(originals, cert[..k]);
          return false;
        }
        CertifiedNext(originals, before, tagged, units, cert, k);
        UsedNext(originals, before, tagged, units, cert, k);
        clauses := clauses + [cert[k]];
      }
      assert cert[..|cert|] == cert;
      Restore(originals, cert);
      return true;
    }

    // Removes the accepted clauses.
    method Restore(ghost originals: seq<Clause>, ghost extra: seq<Clause>)
      requires Valid() && clauses == originals + extra && nbClauses == |originals|
      modifies this`clauses
      ensures Valid() && clauses == originals
    {
      clauses := clauses[..nbClauses];
    }

    // As CheckCertificate, for clauses that arrive one at a time: it stops at the first empty clause.
    method CheckCertificateChan(cert: seq<Clause>) returns (valid: bool)
      requires Valid() && nbClauses == |clauses| && UnitsFromClauses(clauses, nbClauses, units)
      requires forall k :: 0 <= k < |cert| ==> InRange(cert[k], nbVars)
      modifies this
      ensures Valid() && clauses == old(clauses) && units == old(units) && nbClauses == old(nbClauses)
      ensures |tagged| == nbClauses
      ensures valid <==> Accepts(clauses, units, UpToEmpty(cert))
      ensures valid ==> Certified(clauses, tagged, UpToEmpty(cert)) && AllUsed(clauses, units, UpToEmpty(cert), tagged)
    {
      hide AllUsed, TagsRefute, Certified, Accepts, UnitsFromClauses, Grows, Usable, Conflicting, UnitSet, Assume, UnitsTagged, UpToEmpty;
      ghost var originals := clauses;
      InitTagged();
      UnitsAreTagged(originals, tagged, units);
      CertifiedNone(originals, tagged, units);
      UsedNone(originals, tagged, units);
      assert cert[..0] == [];
      for k := 0 to |cert|
        invariant Valid() && units == old(units) && nbClauses == |originals| && |tagged| == nbClauses
        invariant clauses == originals + cert[..k] && [] !in cert[..k]
        invariant UnitsTagged(originals, tagged, units) && Accepts(originals, units, cert[..k])
        invariant Certified(originals, tagged, cert[..k]) && AllUsed(originals, units, cert[..k], tagged)
      {
        ghost var before := tagged;
        var ok := UnsatClause(cert[k]);
        AcceptsNext(originals, units, cert, k);
        if !ok {
          NotAccepted(originals, units, cert, k);
          Restore(originals, cert[..k]);
          return false;
        }
        CertifiedNext(originals, before, tagged, units, cert, k);
        UsedNext(originals, before, tagged, units, cert, k);
        if |cert[k]| == 0 {
          UpToEmptyIs(cert, k);
          Restore(originals, cert[..k]);
          return true;
        }
        assert cert[..k + 1] == cert[..k] + [cert[k]];
        clauses := clauses + [cert[k]];
      }
      assert cert[..|cert|] == cert;
      NoEmpty(cert);
      Restore(originals, cert);
      return true;
    }

    // The tagged clauses, once the certificate is accepted. A satisfiable status is an error.
    method UnsatSubset(cert: seq<Clause>, solverSaysSat: bool) returns (valid: bool, subset: seq<Clause>)
      requires Valid() && nbClauses == |clauses| && UnitsFromClauses(clauses, nbClauses, units)
      requires forall k :: 0 <= k < |cert| ==> InRange(cert[k], nbVars)
      modifies this
      ensures Valid() && clauses == old(clauses) && units == old(units)
      ensures valid <==> !solverSaysSat && Accepts(clauses, units, UpToEmpty(cert))
      ensures valid ==> |tagged| == |clauses| && subset == Selected(clauses, tagged)
      ensures valid ==> AllUsed(clauses, units, UpToEmpty(cert), tagged) && multiset(subset) <= multiset(clauses)
      ensures valid && [] in cert ==> Unsatisfiable(Bags(subset))
      ensures !valid ==> subset == []
    {
      hide Certified, Accepts, UnitsFromClauses, UpToEmpty, Unsatisfiable, Bags, TaggedOriginal, AllUsed;
      subset := [];
      valid := CheckCertificateChan(cert);
      if !valid || solverSaysSat {
        return false, [];
      }
      TaggedNone(clauses, tagged);
      for i := 0 to |clauses|
        invariant Bags(subset) == TaggedOriginal(clauses, tagged[..i]) && subset == Selected(clauses[..i], tagged[..i])
        invariant multiset(subset) <= multiset(clauses[..i])
        modifies {}
      {
        TaggedNext(clauses, tagged, subset, i);
        assert clauses[..i + 1][..i] == clauses[..i] && tagged[..i + 1][..i] == tagged[..i];
        if tagged[i] {
          subset := subset + [clauses[i]];
        }
      }
      assert clauses[..|clauses|] == clauses && tagged[..|clauses|] == tagged;
      if [] in cert {
        EmptyRefutes(clauses, tagged, cert);
      }
    }
  }

  // The certificate up to and including its first empty clause.
  ghost function UpToEmpty(cert: seq<Clause>): seq<Clause>
  {
    if cert == [] then [] else if cert[0] == [] then [[]] else [cert[0]] + UpToEmpty(cert[1..])
  }

  // Every accepted clause follows from the tagged original clauses alone.
  ghost predicate Certified(clauses: seq<Clause>, tagged: seq<bool>, cert: seq<Clause>)
  {
    forall k :: 0 <= k < |cert| ==> Entails(TaggedOriginal(clauses, tagged), multiset(cert[k]))
  }

  // The tagged clauses: those with one literal, and those used in a refutation that accepted a clause of cert.
  ghost predicate AllUsed(clauses: seq<Clause>, units: Units, cert: seq<Clause>, tagged: seq<bool>)
  {
    |tagged| == |clauses| && forall i :: 0 <= i < |tagged| ==>
      (|clauses[i]| == 1 ==> tagged[i]) && (tagged[i] ==> |clauses[i]| == 1 || UsedFor(clauses, units, cert, i))
  }

  ghost predicate UsedFor(clauses: seq<Clause>, units: Units, cert: seq<Clause>, i: nat)
    requires i < |clauses|
  {
    exists k, steps :: 0 <= k < |cert| && UsedAt(clauses, units, cert, i, k, steps)
  }

  ghost predicate UsedAt(clauses: seq<Clause>, units: Units, cert: seq<Clause>, i: nat, k: nat, steps: seq<Lit>)
    requires i < |clauses| && k < |cert|
  {
    InRange(cert[k], |units|)
    && var s := UnitSet(Assume(units, cert[k]));
       Refutes(Bags(clauses + cert[..k]), s, steps) && UsedIn(multiset(clauses[i]), s, steps)
  }

  lemma UsedNone(clauses: seq<Clause>, tagged: seq<bool>, units: Units)
    requires |tagged| == |clauses| && forall i :: 0 <= i < |clauses| ==> (tagged[i] <==> |clauses[i]| == 1)
    ensures AllUsed(clauses, units, [], tagged)
  {
  }

  lemma UsedNext(clauses: seq<Clause>, before: seq<bool>, after: seq<bool>, units: Units, cert: seq<Clause>, k: nat)
    requires k < |cert| && InRange(cert[k], |units|) && AllUsed(clauses, units, cert[..k], before) && Grows(before, after)
    requires TagsRefute(clauses + cert[..k], before, after, UnitSet(Assume(units, cert[k])))
    ensures AllUsed(clauses, units, cert[..k + 1], after)
  {
    hide UnitSet, Assume, Refutes, UsedIn;
    var s := UnitSet(Assume(units, cert[k]));
    var steps :| TagsUsed(clauses + cert[..k], before, after, s, steps);
    forall i | 0 <= i < |clauses| && after[i] ensures |clauses[i]| == 1 || UsedFor(clauses, units, cert[..k + 1], i) {
      assert (clauses + cert[..k])[i] == clauses[i];
      if before[i] {
        UsedStays(clauses, units, cert, k, i);
      } else {
        assert cert[..k + 1][..k] == cert[..k] && cert[..k + 1][k] == cert[k];
        assert UsedAt(clauses, units, cert[..k + 1], i, k, steps);
      }
    }
  }

  lemma UsedStays(clauses: seq<Clause>, units: Units, cert: seq<Clause>, k: nat, i: nat)
    requires k < |cert| && i < |clauses|
    ensures UsedFor(clauses, units, cert[..k], i) ==> UsedFor(clauses, units, cert[..k + 1], i)
  {
    if UsedFor(clauses, units, cert[..k], i) {
      var j, steps :| 0 <= j < k && UsedAt(clauses, units, cert[..k], i, j, steps);
      assert cert[..k + 1][..j] == cert[..k][..j] && cert[..k + 1][j] == cert[..k][j];
      assert UsedAt(clauses, units, cert[..k + 1], i, j, steps);
    }
  }

  // The tagged clauses, in order.
  function Selected(clauses: seq<Clause>, tagged: seq<bool>): seq<Clause>
    requires |clauses| == |tagged|
  {
    if clauses == [] then []
    else
      var n := |clauses| - 1;
      Selected(clauses[..n], tagged[..n]) + if tagged[n] then [clauses[n]] else []
  }

  ghost predicate UnitsTagged(clauses: seq<Clause>, tagged: seq<bool>, units: Units)
  {
    |tagged| == |clauses|
    && forall v :: 0 <= v < |units| && units[v] != 0 ==>
         exists i :: 0 <= i < |clauses| && clauses[i] == [Lit(v, units[v] > 0)] && tagged[i]
  }

  lemma UnitsAreTagged(clauses: seq<Clause>, tagged: seq<bool>, units: Units)
    requires UnitsFromClauses(clauses, |clauses|, units)
    requires |tagged| == |clauses| && forall i :: 0 <= i < |clauses| ==> (tagged[i] <==> |clauses[i]| == 1)
    ensures UnitsTagged(clauses, tagged, units)
  {
    assert clauses[..|clauses|] == clauses;
  }

  lemma CertifiedNone(clauses: seq<Clause>, tagged: seq<bool>, units: Units)
    ensures Certified(clauses, tagged, []) && Accepts(clauses, units, [])
  {
  }

  lemma AcceptsNext(clauses: seq<Clause>, units: Units, cert: seq<Clause>, k: nat)
    requires k < |cert| && Accepts(clauses, units, cert[..k]) && InRange(cert[k], |units|)
    ensures Accepts(clauses, units, cert[..k + 1])
            <==> Conflicting(Bags(clauses + cert[..k]), UnitSet(Assume(units, cert[k])))
    ensures !Accepts(clauses, units, cert[..k + 1]) ==> !Accepts(clauses, units, cert)
  {
    hide Conflicting, Bags, UnitSet, Assume, InRange;
    var now := cert[..k + 1];
    forall j | 0 <= j < k ensures AcceptsAt(clauses, units, now, j) {
      assert AcceptsAt(clauses, units, cert[..k], j);
      assert now[..j] == cert[..k][..j] && now[j] == cert[..k][j];
    }
    assert now[..k] == cert[..k] && now[k] == cert[k];
    assert AcceptsAt(clauses, units, now, k) <==> AcceptsAt(clauses, units, cert, k);
  }

  // An assignment that satisfies the tagged clauses but falsifies c agrees with every binding of the check.
  lemma {:induction false} AssumedHold(units: Units, c: Clause, a: Assignment)
    requires InRange(c, |units|) && WellFormed(units) && AllHold(UnitSet(units), a)
    requires forall l :: l in c ==> !Holds(l, a)
    ensures AllHold(UnitSet(Assume(units, c)), a)
  {
    if c != [] {
      AssumedHold(units, c[..|c| - 1], a);
      assert !Holds(c[|c| - 1], a);
    }
  }

  // A clause refuted from the usable clauses follows from the tagged original ones.
  lemma AcceptedEntailed(clauses: seq<Clause>, before: seq<bool>, after: seq<bool>, units: Units,
                         learned: seq<Clause>, c: Clause)
    requires InRange(c, |units|) && WellFormed(units) && Grows(before, after) && UnitsTagged(clauses, before, units)
    requires forall j :: 0 <= j < |learned| ==> Entails(TaggedOriginal(clauses, after), multiset(learned[j]))
    requires Conflicting(Usable(clauses + learned, after), UnitSet(Assume(units, c)))
    ensures Entails(TaggedOriginal(clauses, after), multiset(c))
  {
    hide Conflicting, UnitSet, Assume, Usable, TaggedOriginal;
    forall a: Assignment | Models(a, TaggedOriginal(clauses, after)) ensures Sat(multiset(c), a) {
      UsableModels(clauses, after, learned, a);
      ConflictingSound(Usable(clauses + learned, after), UnitSet(Assume(units, c)), a);
      TaggedUnitsHold(clauses, before, after, units, a);
      if forall l :: l in c ==> !Holds(l, a) {
        AssumedHold(units, c, a);
      }
    }
  }

  lemma CertifiedNext(clauses: seq<Clause>, before: seq<bool>, after: seq<bool>, units: Units,
                      cert: seq<Clause>, k: nat)
    requires k < |cert| && InRange(cert[k], |units|) && WellFormed(units)
    requires Grows(before, after) && UnitsTagged(clauses, before, units) && Certified(clauses, before, cert[..k])
    requires Conflicting(Usable(clauses + cert[..k], after), UnitSet(Assume(units, cert[k])))
    ensures UnitsTagged(clauses, after, units) && Certified(clauses, after, cert[..k + 1])
  {
    var t := TaggedOriginal(clauses, after);
    assert TaggedOriginal(clauses, before) <= t;
    hide Conflicting, UnitSet, Assume, Usable, Entails, InRange;
    forall j | 0 <= j < k ensures Entails(t, multiset(cert[..k][j])) {
    }
    AcceptedEntailed(clauses, before, after, units, cert[..k], cert[k]);
  }

  lemma UsableModels(clauses: seq<Clause>, tagged: seq<bool>, extra: seq<Clause>, a: Assignment)
    requires |tagged| == |clauses| && Models(a, TaggedOriginal(clauses, tagged))
    requires forall j :: 0 <= j < |extra| ==> Sat(multiset(extra[j]), a)
    ensures Models(a, Usable(clauses + extra, tagged))
  {
    var all := clauses + extra;
    forall c | c in Usable(all, tagged) ensures Sat(c, a) {
      if i :| 0 <= i < |tagged| && tagged[i] && c == multiset(all[i]) {
        assert c == multiset(clauses[i]);
      } else {
        var i :| |tagged| <= i < |all| && c == multiset(all[i]);
        assert all[i] == extra[i - |tagged|];
      }
    }
  }

  lemma TaggedUnitsHold(clauses: seq<Clause>, before: seq<bool>, after: seq<bool>, units: Units, a: Assignment)
    requires Grows(before, after) && UnitsTagged(clauses, before, units)
    requires Models(a, TaggedOriginal(clauses, after))
    ensures AllHold(UnitSet(units), a)
  {
    forall l | l in UnitSet(units) ensures Holds(l, a) {
      var i :| 0 <= i < |clauses| && clauses[i] == [l] && before[i];
      assert multiset(clauses[i]) in TaggedOriginal(clauses, after);
      assert Sat(multiset([l]), a);
    }
  }

  lemma {:induction false} UpToEmptyIs(cert: seq<Clause>, k: nat)
    requires k < |cert| && cert[k] == [] && [] !in cert[..k]
    ensures UpToEmpty(cert) == cert[..k + 1]
  {
    if k > 0 {
      assert cert[0] == cert[..k][0] && cert[1..][..k - 1] == cert[..k][1..];
      UpToEmptyIs(cert[1..], k - 1);
      assert cert[..k + 1] == [cert[0]] + cert[1..][..k];
    }
  }

  lemma {:induction false} NoEmpty(cert: seq<Clause>)
    requires [] !in cert
    ensures UpToEmpty(cert) == cert
  {
    if cert != [] {
      NoEmpty(cert[1..]);
    }
  }

  lemma {:induction false} UpToEmptyPrefix(cert: seq<Clause>, k: nat)
    requires k < |cert| && [] !in cert[..k]
    ensures cert[..k + 1] <= UpToEmpty(cert)
  {
    if k > 0 {
      assert cert[0] == cert[..k][0] && cert[1..][..k - 1] == cert[..k][1..];
      UpToEmptyPrefix(cert[1..], k - 1);
      assert cert[..k + 1] == [cert[0]] + cert[1..][..k];
    }
  }

  lemma NotAccepted(clauses: seq<Clause>, units: Units, cert: seq<Clause>, k: nat)
    requires k < |cert| && [] !in cert[..k] && !Accepts(clauses, units, cert[..k + 1])
    ensures !Accepts(clauses, units, UpToEmpty(cert))
  {
    UpToEmptyPrefix(cert, k);
    var all, now := UpToEmpty(cert), cert[..k + 1];
    var j: nat :| j < |now| && !AcceptsAt(clauses, units, now, j);
    assert all[..j] == now[..j] && all[j] == now[j];
    assert !AcceptsAt(clauses, units, all, j);
  }

  lemma TaggedNone(clauses: seq<Clause>, tagged: seq<bool>)
    ensures Bags([]) == TaggedOriginal(clauses, tagged[..0])
    ensures multiset(clauses[..0]) == multiset{}
  {
  }

  lemma TaggedNext(clauses: seq<Clause>, tagged: seq<bool>, subset: seq<Clause>, i: nat)
    requires i < |clauses| == |tagged| && Bags(subset) == TaggedOriginal(clauses, tagged[..i])
    requires multiset(subset) <= multiset(clauses[..i])
    ensures Bags(if tagged[i] then subset + [clauses[i]] else subset) == TaggedOriginal(clauses, tagged[..i + 1])
    ensures multiset(if tagged[i] then subset + [clauses[i]] else subset) <= multiset(clauses[..i + 1])
  {
    assert clauses[..i + 1] == clauses[..i] + [clauses[i]];
    var now := if tagged[i] then subset + [clauses[i]] else subset;
    var t := TaggedOriginal(clauses, tagged[..i + 1]);
    forall c | c in t ensures c in Bags(now) {
      var j :| 0 <= j <= i && tagged[j] && c == multiset(clauses[j]);
      if j < i {
        assert c == multiset(clauses[j]) && tagged[..i][j];
        assert c in Bags(subset);
        var d :| d in subset && c == multiset(d);
        assert d in now;
      } else {
        assert now[|now| - 1] == clauses[i];
        BagsOf(now, |now| - 1);
      }
    }
    forall c | c in Bags(now) ensures c in t {
      var d :| d in now && c == multiset(d);
      if d in subset {
        assert c in TaggedOriginal(clauses, tagged[..i]);
        var j :| 0 <= j < i && tagged[..i][j] && c == multiset(clauses[j]);
        assert tagged[..i + 1][j];
      } else {
        assert tagged[..i + 1][i];
      }
    }
  }

  lemma {:induction false} EmptyKept(cert: seq<Clause>)
    requires [] in cert
    ensures [] in UpToEmpty(cert)
  {
    if cert[0] != [] {
      assert [] in cert[1..];
      EmptyKept(cert[1..]);
    }
  }

  // Once the empty clause is accepted, the tagged original clauses alone are unsatisfiable.
  lemma EmptyRefutes(clauses: seq<Clause>, tagged: seq<bool>, cert: seq<Clause>)
    requires [] in cert && Certified(clauses, tagged, UpToEmpty(cert))
    ensures Unsatisfiable(TaggedOriginal(clauses, tagged))
  {
    EmptyKept(cert);
    var k :| 0 <= k < |UpToEmpty(cert)| && UpToEmpty(cert)[k] == [];
    assert Entails(TaggedOriginal(clauses, tagged), multiset([]));
  }
}
