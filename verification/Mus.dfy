// Extraction of a minimal unsatisfiable subset by deletion and by insertion (explain/mus.go), over a decision
// procedure for clause sets under assumptions.
module Mus {
  import opened Logic
  import opened Bindings
  import opened Simplify
  import opened Certificate
  import E = Explain

  type Oracle = (seq<Clause>, seq<Lit>) -> bool

  ghost predicate Satisfiable(cs: seq<Clause>) { exists a: Assignment :: Meets(a, cs) }

  ghost predicate SatisfiableWith(cs: seq<Clause>, assumptions: seq<Lit>)
  {
    exists a: Assignment :: Meets(a, cs) && AllHold(Elems(assumptions), a)
  }

  // Sound and complete solving, the search under assumptions included.
  ghost predicate Exact(sat: Oracle)
  {
    forall cs, assumptions :: sat(cs, assumptions) <==> SatisfiableWith(cs, assumptions)
  }

  // Such a procedure exists.
  lemma ExactExists()
    ensures exists sat: Oracle :: Exact(sat)
  {
    var sat: Oracle := (cs, assumptions) => SatisfiableWith(cs, assumptions);
    assert Exact(sat);
  }

  function Without<T>(s: seq<T>, i: nat): seq<T>
    requires i < |s|
  {
    s[..i] + s[i + 1..]
  }

  // No model, but one as soon as any one clause is dropped.
  ghost predicate Minimal(cs: seq<Clause>)
  {
    !Satisfiable(cs) && forall i :: 0 <= i < |cs| ==> Satisfiable(Without(cs, i))
  }

  lemma FewerClauses(cs: seq<Clause>, ds: seq<Clause>)
    requires Satisfiable(ds) && forall c :: c in cs ==> c in ds
    ensures Satisfiable(cs)
  {
    var a: Assignment :| Meets(a, ds);
    assert Meets(a, cs);
  }

  // ----- deletion -----

  // The literal that switches clause i off when it is true.
  function Relax(nbVars: nat, i: nat): Lit { Lit(nbVars + i, true) }

  function Relaxed(nbVars: nat, cs: seq<Clause>): seq<Clause>
  {
    seq(|cs|, i requires 0 <= i < |cs| => cs[i] + [Relax(nbVars, i)])
  }

  // One relax literal per clause: negative while the clause is enforced.
  predicate Assumes(nbVars: nat, assumptions: seq<Lit>)
  {
    forall i :: 0 <= i < |assumptions| ==> assumptions[i].v == nbVars + i
  }

  // The clauses enforced by the assumptions, in order.
  function Enforced(cs: seq<Clause>, assumptions: seq<Lit>): seq<Clause>
    requires |cs| == |assumptions|
  {
    if cs == [] then []
    else var n := |cs| - 1; Enforced(cs[..n], assumptions[..n]) + if assumptions[n].pos then [] else [cs[n]]
  }

  lemma {:induction false} EnforcedElems(cs: seq<Clause>, assumptions: seq<Lit>)
    requires |cs| == |assumptions|
    ensures forall c :: c in Enforced(cs, assumptions) <==> exists i :: 0 <= i < |cs| && !assumptions[i].pos && cs[i] == c
    ensures multiset(Enforced(cs, assumptions)) <= multiset(cs)
  {
    if cs != [] {
      var n := |cs| - 1;
      EnforcedElems(cs[..n], assumptions[..n]);
      assert cs == cs[..n] + [cs[n]];
    }
  }

  lemma SatAgree(c: Clause, n: nat, a: Assignment, b: Assignment)
    requires InRange(c, n) && forall v: nat :: v < n ==> a(v) == b(v)
    ensures Sat(multiset(c), a) <==> Sat(multiset(c), b)
  {
    assert forall l :: l in multiset(c) ==> (Holds(l, a) <==> Holds(l, b));
  }

  ghost function WithRelax(a: Assignment, nbVars: nat, assumptions: seq<Lit>): Assignment
  {
    (v: nat) => if nbVars <= v < nbVars + |assumptions| then assumptions[v - nbVars].pos else a(v)
  }

  // The relaxed clause i under assignments that make the assumptions true.
  lemma RelaxedClause(nbVars: nat, cs: seq<Clause>, assumptions: seq<Lit>, i: nat, a: Assignment)
    requires |cs| == |assumptions| && i < |cs| && Assumes(nbVars, assumptions) && Holds(assumptions[i], a)
    ensures Sat(multiset(Relaxed(nbVars, cs)[i]), a) <==> Sat(multiset(cs[i]), a) || assumptions[i].pos
  {
  }

  lemma RelaxedMeets(nbVars: nat, cs: seq<Clause>, assumptions: seq<Lit>, a: Assignment)
    requires |cs| == |assumptions| && Assumes(nbVars, assumptions) && AllHold(Elems(assumptions), a)
    ensures Meets(a, Relaxed(nbVars, cs)) <==> Meets(a, Enforced(cs, assumptions))
  {
    hide Sat;
    var rs := Relaxed(nbVars, cs);
    EnforcedElems(cs, assumptions);
    forall i | 0 <= i < |cs| ensures Sat(multiset(rs[i]), a) <==> Sat(multiset(cs[i]), a) || assumptions[i].pos {
      assert assumptions[i] in Elems(assumptions);
      RelaxedClause(nbVars, cs, assumptions, i, a);
    }
    assert Meets(a, rs) <==> forall i :: 0 <= i < |cs| ==> Sat(multiset(rs[i]), a) by {
      assert forall i :: 0 <= i < |cs| ==> rs[i] in rs;
    }
  }

  lemma MeetsAgree(cs: seq<Clause>, n: nat, a: Assignment, b: Assignment)
    requires (forall c :: c in cs ==> InRange(c, n)) && forall v: nat :: v < n ==> a(v) == b(v)
    ensures Meets(a, cs) <==> Meets(b, cs)
  {
    hide Sat, InRange;
    forall c | c in cs ensures Sat(multiset(c), a) <==> Sat(multiset(c), b) {
      SatAgree(c, n, a, b);
    }
  }

  // With fresh relax literals, assuming them amounts to keeping the enforced clauses.
  lemma RelaxedMeans(nbVars: nat, cs: seq<Clause>, assumptions: seq<Lit>)
    requires |cs| == |assumptions| && Assumes(nbVars, assumptions) && forall c :: c in cs ==> InRange(c, nbVars)
    ensures SatisfiableWith(Relaxed(nbVars, cs), assumptions) <==> Satisfiable(Enforced(cs, assumptions))
  {
    hide Meets, InRange;
    var rs, es := Relaxed(nbVars, cs), Enforced(cs, assumptions);
    if SatisfiableWith(rs, assumptions) {
      var a: Assignment :| Meets(a, rs) && AllHold(Elems(assumptions), a);
      RelaxedMeets(nbVars, cs, assumptions, a);
    }
    if Satisfiable(es) {
      var a: Assignment :| Meets(a, es);
      var b := WithRelax(a, nbVars, assumptions);
      forall l | l in Elems(assumptions) ensures Holds(l, b) {
        var i :| 0 <= i < |assumptions| && assumptions[i] == l;
      }
      EnforcedElems(cs, assumptions);
      MeetsAgree(es, nbVars, a, b);
      RelaxedMeets(nbVars, cs, assumptions, b);
    }
  }

  // Switching more clauses off.
  ghost predicate OffSince(before: seq<Lit>, now: seq<Lit>)
  {
    |before| == |now| && forall i :: 0 <= i < |now| && !now[i].pos ==> !before[i].pos
  }

  // Clause k was needed when it was its turn: without it what was enforced then has a model.
  ghost predicate Needed(cs: seq<Clause>, assumptions: seq<Lit>, k: nat)
    requires |cs| == |assumptions|
  {
    k < |cs| && Satisfiable(Enforced(cs, assumptions[k := assumptions[k].Neg()]))
  }

  lemma NeededStays(cs: seq<Clause>, before: seq<Lit>, now: seq<Lit>, k: nat)
    requires |cs| == |before| && OffSince(before, now) && Needed(cs, before, k) && !now[k].pos
    ensures Needed(cs, now, k)
  {
    var b, n := before[k := before[k].Neg()], now[k := now[k].Neg()];
    EnforcedElems(cs, b);
    EnforcedElems(cs, n);
    forall c | c in Enforced(cs, n) ensures c in Enforced(cs, b) {
      var i :| 0 <= i < |cs| && !n[i].pos && cs[i] == c;
      assert i != k && !now[i].pos && !before[i].pos && !b[i].pos;
    }
    FewerClauses(Enforced(cs, n), Enforced(cs, b));
  }

  // The jth enforced clause comes from some enforced position, and dropping it is switching that position off.
  lemma {:induction false} EnforcedAt(cs: seq<Clause>, assumptions: seq<Lit>, j: nat) returns (k: nat)
    requires |cs| == |assumptions| && j < |Enforced(cs, assumptions)|
    ensures k < |cs| && !assumptions[k].pos
    ensures Without(Enforced(cs, assumptions), j) == Enforced(cs, assumptions[k := assumptions[k].Neg()])
  {
    var n := |cs| - 1;
    var es := Enforced(cs[..n], assumptions[..n]);
    if j < |es| {
      k := EnforcedAt(cs[..n], assumptions[..n], j);
      assert assumptions[k := assumptions[k].Neg()][..n] == assumptions[..n][k := assumptions[k].Neg()];
      assert Without(Enforced(cs, assumptions), j) == Without(es, j) + if assumptions[n].pos then [] else [cs[n]];
    } else {
      k := n;
      assert assumptions[k := assumptions[k].Neg()][..n] == assumptions[..n];
      assert Without(Enforced(cs, assumptions), j) == es;
    }
  }

  lemma DeletionMinimal(cs: seq<Clause>, assumptions: seq<Lit>)
    requires |cs| == |assumptions| && !Satisfiable(Enforced(cs, assumptions))
    requires forall k :: 0 <= k < |cs| && !assumptions[k].pos ==> Needed(cs, assumptions, k)
    ensures Minimal(Enforced(cs, assumptions))
  {
    forall j | 0 <= j < |Enforced(cs, assumptions)| ensures Satisfiable(Without(Enforced(cs, assumptions), j)) {
      var k := EnforcedAt(cs, assumptions, j);
      assert Needed(cs, assumptions, k);
    }
  }

  // MUSDeletion on the clauses given; nothing if they are satisfiable or their certificate is refused.
  method MUSDeletion(nbVars: nat, cnf: seq<Clause>, sat: Oracle, activity: seq<real>)
    returns (status: Status, mus: Option<seq<Clause>>)
    requires Exact(sat) && (forall c :: c in cnf ==> InRange(c, nbVars)) && |activity| == nbVars
    ensures mus.Some? ==> status == IsUnsat && Minimal(mus.value) && multiset(mus.value) <= multiset(cnf)
    ensures status == if Satisfiable(cnf) then IsSat else IsUnsat
    ensures !Satisfiable(cnf) && E.AllHarmless(cnf) ==> mus.Some?
  {
    hide Exact, Minimal, Satisfiable, E.AllHarmless, InRange, Unsatisfiable;
    var valid, subset;
    status, valid, subset := E.UnsatSubset(nbVars, cnf, activity);
    SameModels(cnf);
    SameModels(subset);
    mus := None;
    if valid {
      Members(subset, cnf);
      var m := Deletion(nbVars, subset, sat);
      mus := Some(m);
    }
  }

  method MUSInsertion(nbVars: nat, cnf: seq<Clause>, sat: Oracle, activity: seq<real>)
    returns (status: Status, mus: Option<seq<Clause>>)
    requires Exact(sat) && (forall c :: c in cnf ==> InRange(c, nbVars)) && |activity| == nbVars
    ensures mus.Some? ==> status == IsUnsat && Minimal(mus.value) && multiset(mus.value) <= multiset(cnf)
    ensures status == if Satisfiable(cnf) then IsSat else IsUnsat
    ensures !Satisfiable(cnf) && E.AllHarmless(cnf) ==> mus.Some?
  {
    hide Exact, Minimal, Satisfiable, E.AllHarmless, InRange, Unsatisfiable;
    var valid, subset;
    status, valid, subset := E.UnsatSubset(nbVars, cnf, activity);
    SameModels(cnf);
    SameModels(subset);
    mus := None;
    if valid {
      var m := Insertion(subset, sat);
      mus := Some(m);
    }
  }

  lemma SameModels(cs: seq<Clause>)
    ensures Unsatisfiable(Bags(cs)) <==> !Satisfiable(cs)
    ensures (exists a: Assignment :: Models(a, Bags(cs))) <==> Satisfiable(cs)
  {
    forall a: Assignment ensures Models(a, Bags(cs)) <==> Meets(a, cs) {
      assert forall c :: c in cs ==> multiset(c) in Bags(cs);
    }
  }

  lemma Members(subset: seq<Clause>, cnf: seq<Clause>)
    requires multiset(subset) <= multiset(cnf)
    ensures forall c :: c in subset ==> c in cnf
  {
    forall c | c in subset ensures c in cnf {
      assert c in multiset(subset);
    }
  }

  // From an unsatisfiable subset: one call to the solver per clause.
  method Deletion(nbVars: nat, cs: seq<Clause>, sat: Oracle) returns (mus: seq<Clause>)
    requires Exact(sat) && !Satisfiable(cs) && forall c :: c in cs ==> InRange(c, nbVars)
    ensures Minimal(mus) && multiset(mus) <= multiset(cs)
  {
    hide Satisfiable, SatisfiableWith, Enforced, Relaxed, InRange;
    var pb := Relaxed(nbVars, cs);
    var assumptions := seq(|cs|, (i: nat) => Relax(nbVars, i).Neg());
    AllEnforced(cs, assumptions);
    for i := 0 to |cs|
      invariant |assumptions| == |cs| && Assumes(nbVars, assumptions) && !Satisfiable(Enforced(cs, assumptions))
      invariant forall k :: i <= k < |cs| ==> !assumptions[k].pos
      invariant forall k :: 0 <= k < i && !assumptions[k].pos ==> Needed(cs, assumptions, k)
    {
      var before := assumptions;
      assumptions := assumptions[i := assumptions[i].Neg()];
      RelaxedMeans(nbVars, cs, assumptions);
      if sat(pb, assumptions) {  // the clause is needed: enforce it again
        assumptions := assumptions[i := assumptions[i].Neg()];
        assert assumptions == before;
      } else {
        forall k | 0 <= k < i && !assumptions[k].pos ensures Needed(cs, assumptions, k) {
          NeededStays(cs, before, assumptions, k);
        }
      }
    }
    DeletionMinimal(cs, assumptions);
    EnforcedElems(cs, assumptions);
    mus := [];
    for i := 0 to |cs|
      invariant mus == Enforced(cs[..i], assumptions[..i])
    {
      EnforcedMore(cs, assumptions, i);
      if !assumptions[i].pos {
        mus := mus + [cs[i]];
      }
    }
    assert cs[..|cs|] == cs && assumptions[..|cs|] == assumptions;
  }

  lemma EnforcedMore(cs: seq<Clause>, assumptions: seq<Lit>, i: nat)
    requires |cs| == |assumptions| && i < |cs|
    ensures Enforced(cs[..i + 1], assumptions[..i + 1])
         == Enforced(cs[..i], assumptions[..i]) + if assumptions[i].pos then [] else [cs[i]]
    ensures Enforced(cs[..0], assumptions[..0]) == []
  {
    assert cs[..i + 1][..i] == cs[..i] && assumptions[..i + 1][..i] == assumptions[..i];
  }

  lemma {:induction false} AllEnforced(cs: seq<Clause>, assumptions: seq<Lit>)
    requires |cs| == |assumptions| && forall i :: 0 <= i < |cs| ==> !assumptions[i].pos
    ensures Enforced(cs, assumptions) == cs
    ensures Enforced([], []) == []
  {
    if cs != [] {
      AllEnforced(cs[..|cs| - 1], assumptions[..|cs| - 1]);
    }
  }

  // ----- insertion -----

  // Each clause chosen so far is needed beside the candidates that are left.
  ghost predicate Chosen(mus: seq<Clause>, clauses: seq<Clause>)
  {
    !Satisfiable(mus + clauses) && forall i :: 0 <= i < |mus| ==> Satisfiable(Without(mus, i) + clauses)
  }

  // The clause that makes the set unsatisfiable is chosen, and those after it are dropped.
  lemma ChooseOne(mus: seq<Clause>, clauses: seq<Clause>, idx: nat)
    requires Chosen(mus, clauses) && idx < |clauses|
    requires Satisfiable(mus + clauses[..idx]) && !Satisfiable(mus + clauses[..idx + 1])
    ensures Chosen(mus + [clauses[idx]], clauses[..idx])
  {
    var mus', rest := mus + [clauses[idx]], clauses[..idx];
    forall c | c in mus + clauses[..idx + 1] ensures c in mus' + rest {
      assert clauses[..idx + 1] == rest + [clauses[idx]];
    }
    if Satisfiable(mus' + rest) {
      FewerClauses(mus + clauses[..idx + 1], mus' + rest);
    }
    forall i | 0 <= i < |mus'| ensures Satisfiable(Without(mus', i) + rest) {
      if i == |mus| {
        assert Without(mus', i) == mus;
      } else {
        assert Without(mus', i) == Without(mus, i) + [clauses[idx]];
        assert clauses[idx] in clauses && forall c :: c in rest ==> c in clauses;
        FewerClauses(Without(mus', i) + rest, Without(mus, i) + clauses);
      }
    }
  }

  // MUSInsertion, from the unsatisfiable subset cs it starts with.
  method Insertion(cs: seq<Clause>, sat: Oracle) returns (mus: seq<Clause>)
    requires Exact(sat) && !Satisfiable(cs)
    ensures Minimal(mus) && multiset(mus) <= multiset(cs)
  {
    hide Satisfiable, SatisfiableWith, Chosen, Minimal;
    var clauses := cs;
    mus := [];
    NoneChosen(cs);
    while true
      invariant Chosen(mus, clauses) && multiset(mus) + multiset(clauses) <= multiset(cs)
      decreases |clauses|
    {
      NoAssumptions(mus);
      if !sat(mus, []) {
        ChosenMinimal(mus, clauses);
        return;
      }
      ChosenUnsat(mus, clauses);
      var idx, st := 0, true;
      assert mus + clauses[..idx] == mus;
      while st
        invariant idx <= |clauses| && (st ==> Satisfiable(mus + clauses[..idx]))
        invariant !st ==> 0 < idx && Satisfiable(mus + clauses[..idx - 1]) && !Satisfiable(mus + clauses[..idx])
        decreases |clauses| - idx, st
      {
        assert clauses[..|clauses|] == clauses;
        idx := idx + 1;
        NoAssumptions(mus + clauses[..idx]);
        st := sat(mus + clauses[..idx], []);
      }
      idx := idx - 1;  // one step too far
      ChooseOne(mus, clauses, idx);
      assert clauses == clauses[..idx] + [clauses[idx]] + clauses[idx + 1..];
      mus := mus + [clauses[idx]];
      clauses := clauses[..idx];
    }
  }

  lemma NoAssumptions(cs: seq<Clause>)
    ensures SatisfiableWith(cs, []) <==> Satisfiable(cs)
  {
    if Satisfiable(cs) {
      var a: Assignment :| Meets(a, cs);
      assert AllHold(Elems([]), a);
    }
  }

  lemma NoneChosen(cs: seq<Clause>)
    requires !Satisfiable(cs)
    ensures Chosen([], cs)
  {
    assert [] + cs == cs;
  }

  lemma ChosenUnsat(mus: seq<Clause>, clauses: seq<Clause>)
    requires Chosen(mus, clauses)
    ensures !Satisfiable(mus + clauses)
  {
  }

  lemma ChosenMinimal(mus: seq<Clause>, clauses: seq<Clause>)
    requires Chosen(mus, clauses) && !Satisfiable(mus)
    ensures Minimal(mus)
  {
    forall i | 0 <= i < |mus| ensures Satisfiable(Without(mus, i)) {
      FewerClauses(Without(mus, i), Without(mus, i) + clauses);
    }
  }
}
