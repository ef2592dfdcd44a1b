// Pseudo-boolean clauses, solver/clause.go: construction, the in-place edits used by the simplifications, and
// SimplifyPB.
module PbClause {
  import opened Logic
  import opened Bindings
  import opened Linear

  datatype Simplified = Unsat | Simplified(units: seq<Lit>, rest: Option<Constr>)

  // What NewPBClause promises its readers.
  ghost predicate Sorted(c: Constr) { Descending(c.terms) && c.card >= 1 }

  // No literal of c is forced by c alone.
  ghost predicate NothingForced(c: Constr) { forall i :: 0 <= i < |c.terms| ==> WeightSum(c.terms) - c.terms[i].w >= c.card }

  function InsertTerm(t: Term, ts: seq<Term>): (r: seq<Term>)
    ensures multiset(r) == multiset(ts) + multiset{t}
  {
    if ts == [] || t.w >= ts[0].w then [t] + ts
    else
      assert ts == [ts[0]] + ts[1..];
      [ts[0]] + InsertTerm(t, ts[1..])
  }

  lemma {:induction false} InsertDescending(t: Term, ts: seq<Term>)
    requires Descending(ts)
    ensures Descending(InsertTerm(t, ts))
  {
    if ts != [] && t.w < ts[0].w {
      var r := InsertTerm(t, ts[1..]);
      InsertDescending(t, ts[1..]);
      hide InsertTerm;
      forall k | 0 <= k < |r| ensures ts[0].w >= r[k].w {
        InsertedElem(t, ts[1..], r[k]);
      }
      assert InsertTerm(t, ts) == [ts[0]] + r by {
        InsertNext(t, ts);
      }
    }
  }

  lemma InsertNext(t: Term, ts: seq<Term>)
    requires ts != [] && t.w < ts[0].w
    ensures InsertTerm(t, ts) == [ts[0]] + InsertTerm(t, ts[1..])
  {
  }

  lemma InsertedElem(t: Term, ts: seq<Term>, u: Term)
    requires u in InsertTerm(t, ts)
    ensures u == t || u in ts
  {
    assert u in multiset(ts) + multiset{t};
  }

  // sort.Sort on the terms; any descending arrangement will do for the callers.
  method SortTerms(ts: seq<Term>) returns (r: seq<Term>)
    ensures multiset(r) == multiset(ts) && Descending(r)
  {
    r := [];
    for i := 0 to |ts|
      invariant multiset(r) == multiset(ts[..i]) && Descending(r)
    {
      assert ts[..i + 1] == ts[..i] + [ts[i]];
      InsertDescending(ts[i], r);
      r := InsertTerm(ts[i], r);
    }
    assert ts[..|ts|] == ts;
  }

  method NewPBClause(ts: seq<Term>, card: int) returns (c: Constr)
    requires card >= 1
    ensures c.card == card && multiset(c.terms) == multiset(ts) && Sorted(c)
    ensures forall a: Assignment :: Met(c, a) <==> Met(Constr(ts, card), a)
  {
    var sorted := SortTerms(ts);
    c := Constr(sorted, card);
    forall a: Assignment ensures Met(c, a) <==> Met(Constr(ts, card), a) {
      SumPermuted(sorted, ts, TrueIn(a));
    }
  }

  // The literals of the first i terms, all of them forced, and what is left of the constraint.
  lemma Residual(c: Constr, i: nat, a: Assignment)
    requires NonNegative(c.terms) && i <= |c.terms|
    requires forall k :: 0 <= k < i ==> WeightSum(c.terms) - c.terms[k].w < c.card
    ensures Met(c, a) <==>
            (forall k :: 0 <= k < i ==> Holds(c.terms[k].l, a))
            && Met(Constr(c.terms[i..], c.card - WeightSum(c.terms[..i])), a)
  {
    if Met(c, a) {
      forall k | 0 <= k < i ensures Holds(c.terms[k].l, a) {
        Forced(c, a, k);
      }
    }
    assert c.terms == c.terms[..i] + c.terms[i..];
    SumConcat(c.terms[..i], c.terms[i..], TrueIn(a));
    if forall k :: 0 <= k < i ==> Holds(c.terms[k].l, a) {
      SumAgree(c.terms[..i], TrueIn(a), Weights());
    }
  }

  function Saturated(ts: seq<Term>, card: int): seq<Term>
    requires ts != []
  {
    if ts[0].w > card then ts[0 := Term(ts[0].l, card)] else ts
  }

  // Lowering a weight to the degree changes nothing.
  lemma SaturateSame(ts: seq<Term>, card: int, a: Assignment)
    requires ts != [] && NonNegative(ts) && card >= 1
    ensures Met(Constr(Saturated(ts, card), card), a) <==> Met(Constr(ts, card), a)
  {
    var us := Saturated(ts, card);
    SumSplit(ts, 0, TrueIn(a));
    SumSplit(us, 0, TrueIn(a));
    assert us[1..] == ts[1..] && ts[..0] == us[..0] == [];
    SumNonNegative(ts[1..], TrueIn(a));
  }

  // No weight exceeds the sum of them all.
  lemma WeightAtMostSum(ts: seq<Term>, i: nat)
    requires NonNegative(ts) && i < |ts|
    ensures ts[i].w <= WeightSum(ts)
  {
    SumSplit(ts, i, Weights());
    SumNonNegative(ts[..i], Weights());
    SumNonNegative(ts[i + 1..], Weights());
  }

  lemma SaturateSlack(ts: seq<Term>, card: int)
    requires ts != [] && NonNegative(ts) && Descending(ts) && NothingForced(Constr(ts, card)) && card >= 1
    ensures NonNegative(Saturated(ts, card)) && NothingForced(Constr(Saturated(ts, card), card))
  {
    if ts[0].w > card {
      var us, rest := Saturated(ts, card), ts[1..];
      HeadSum(ts);
      HeadSum(us);
      assert us[1..] == rest && NonNegative(rest) && us == [us[0]] + rest;
      assert WeightSum(us) == card + WeightSum(rest);
      forall i | 0 <= i < |us| ensures WeightSum(us) - us[i].w >= card {
        if i > 0 {
          WeightAtMostSum(rest, i - 1);
        }
      }
    }
  }

  lemma HeadSum(ts: seq<Term>)
    requires ts != []
    ensures WeightSum(ts) == ts[0].w + WeightSum(ts[1..])
  {
    SumSplit(ts, 0, Weights());
  }

  lemma SlackPermuted(c: Constr, d: Constr)
    requires multiset(c.terms) == multiset(d.terms) && c.card == d.card && NothingForced(c)
    ensures NothingForced(d)
  {
    SumPermuted(c.terms, d.terms, Weights());
    forall i | 0 <= i < |d.terms| ensures WeightSum(d.terms) - d.terms[i].w >= d.card {
      assert d.terms[i] in multiset(c.terms);
      var k :| 0 <= k < |c.terms| && c.terms[k] == d.terms[i];
    }
  }

  ghost predicate Equivalent(c: Constr, r: Simplified, a: Assignment)
  {
    match r
    case Unsat => !Met(c, a)
    case Simplified(units, rest) =>
      Met(c, a) <==> AllHold(Elems(units), a) && (rest.Some? ==> Met(rest.value, a))
  }

  // The forced terms are the first i ones, and the degree left after them is positive.
  ghost predicate Stops(c: Constr, i: nat, card: int)
  {
    i <= |c.terms| && card == c.card - WeightSum(c.terms[..i])
    && forall k :: 0 <= k < |c.terms| ==> (k < i <==> WeightSum(c.terms) - c.terms[k].w < c.card)
  }

  lemma SumOfRest(ts: seq<Term>, i: nat)
    requires i <= |ts|
    ensures WeightSum(ts) == WeightSum(ts[..i]) + WeightSum(ts[i..])
    ensures i == |ts| ==> WeightSum(ts[i..]) == 0
  {
    SumConcat(ts[..i], ts[i..], Weights());
    assert ts == ts[..i] + ts[i..];
  }

  lemma RestSlack(c: Constr, i: nat, card: int)
    requires Sorted(c) && NonNegative(c.terms) && Stops(c, i, card) && WeightSum(c.terms) >= c.card && card > 0
    ensures var rest := c.terms[i..];
            rest != [] && Descending(rest) && NonNegative(rest) && NothingForced(Constr(rest, card))
  {
    hide WeightSum;
    SumOfRest(c.terms, i);
    var rest := c.terms[i..];
    forall k | 0 <= k < |rest| ensures WeightSum(rest) - rest[k].w >= card {
      assert rest[k] == c.terms[i + k];
    }
  }

  // Saturating and sorting what is left keeps its meaning and forces nothing new.
  lemma Rest(rest: seq<Term>, card: int, c2: Constr)
    requires rest != [] && Descending(rest) && NonNegative(rest) && NothingForced(Constr(rest, card)) && card >= 1
    requires c2.card == card && multiset(c2.terms) == multiset(Saturated(rest, card))
    ensures NonNegative(c2.terms) && NothingForced(c2)
    ensures forall a: Assignment :: Met(c2, a) <==> Met(Constr(rest, card), a)
  {
    SaturateSlack(rest, card);
    SlackPermuted(Constr(Saturated(rest, card), card), c2);
    assert forall t :: t in c2.terms ==> t in multiset(c2.terms);
    forall a: Assignment ensures Met(c2, a) <==> Met(Constr(rest, card), a) {
      SaturateSame(rest, card, a);
      SumPermuted(c2.terms, Saturated(rest, card), TrueIn(a));
    }
  }

  lemma UnitsAndRest(c: Constr, i: nat, card: int, units: seq<Lit>)
    requires NonNegative(c.terms) && Stops(c, i, card) && |units| == i
    requires forall k :: 0 <= k < i ==> units[k] == c.terms[k].l
    ensures forall a: Assignment :: Met(c, a) <==> AllHold(Elems(units), a) && Met(Constr(c.terms[i..], card), a)
    ensures card <= 0 ==> forall a: Assignment :: Met(Constr(c.terms[i..], card), a)
  {
    forall a: Assignment
      ensures Met(c, a) <==> AllHold(Elems(units), a) && Met(Constr(c.terms[i..], card), a)
    {
      Residual(c, i, a);
      assert forall k :: 0 <= k < i ==> units[k] in Elems(units);
    }
    if card <= 0 {
      forall a: Assignment ensures Met(Constr(c.terms[i..], card), a) {
        SumNonNegative(c.terms[i..], TrueIn(a));
      }
    }
  }

  lemma NoPrefix(ts: seq<Term>)
    ensures WeightSum(ts[..0]) == 0
  {
  }

  lemma TooLight(c: Constr)
    requires WeightSum(c.terms) < c.card && NonNegative(c.terms)
    ensures forall a: Assignment :: Equivalent(c, Unsat, a)
  {
    forall a: Assignment ensures !Met(c, a) {
      SumMono(c.terms, TrueIn(a), Weights());
    }
  }

  lemma Assembled(c: Constr, units: seq<Lit>, rest: Option<Constr>, left: Constr)
    requires forall a: Assignment :: Met(c, a) <==> AllHold(Elems(units), a) && Met(left, a)
    requires forall a: Assignment :: Met(left, a) <==> (rest.Some? ==> Met(rest.value, a))
    ensures forall a: Assignment :: Equivalent(c, Simplified(units, rest), a)
  {
  }

  // Propagates what a constraint forces whatever the assignment. The units and the rest together mean the
  // constraint; the units are all that is forced, and nothing more is forced by the rest.
  method SimplifyPB(c: Constr) returns (r: Simplified)
    requires Sorted(c) && NonNegative(c.terms)
    ensures forall a: Assignment :: Equivalent(c, r, a)
    ensures r.Unsat? <==> WeightSum(c.terms) < c.card
    ensures r.Simplified? ==> |r.units| <= |c.terms| && forall i :: 0 <= i < |r.units| ==> r.units[i] == c.terms[i].l
    ensures r.Simplified? ==> Stops(c, |r.units|, c.card - WeightSum(c.terms[..|r.units|]))
    ensures r.Simplified? && r.rest.Some? ==>
              Sorted(r.rest.value) && NonNegative(r.rest.value.terms) && NothingForced(r.rest.value)
    ensures r.Simplified? ==> (r.rest.Some? <==> c.card > WeightSum(c.terms[..|r.units|]))
    ensures r.Simplified? && r.rest.Some? ==>
              var rest := c.terms[|r.units|..];
              rest != [] && r.rest.value.card == c.card - WeightSum(c.terms[..|r.units|])
              && multiset(r.rest.value.terms) == multiset(Saturated(rest, r.rest.value.card))
  {
    hide Sum, Equivalent, NothingForced, Saturated;
    NoPrefix(c.terms);
    var card := c.card;
    var sum := TotalWeight(c.terms);
    var thresh := sum - card;
    if thresh < 0 {
      TooLight(c);
      return Unsat;
    }
    var i, units := 0, [];
    while i < |c.terms| && c.terms[i].w > thresh
      invariant 0 <= i == |units| <= |c.terms|
      invariant forall k :: 0 <= k < i ==> units[k] == c.terms[k].l && c.terms[k].w > thresh
      invariant card == c.card - WeightSum(c.terms[..i])
    {
      units := units + [c.terms[i].l];
      card := card - c.terms[i].w;
      Taken(c.terms, i, Weights());
      i := i + 1;
    }
    UnitsAndRest(c, i, card, units);
    if card <= 0 {
      Assembled(c, units, None, Constr(c.terms[i..], card));
      return Simplified(units, None);
    }
    RestSlack(c, i, card);
    var c2 := NewPBClause(Saturated(c.terms[i..], card), card);
    Rest(c.terms[i..], card, c2);
    Assembled(c, units, Some(c2), Constr(c.terms[i..], card));
    r := Simplified(units, Some(c2));
  }

  method TotalWeight(ts: seq<Term>) returns (sum: int)
    ensures sum == WeightSum(ts)
  {
    sum := 0;
    for i := 0 to |ts|
      invariant sum == WeightSum(ts[..i])
    {
      Taken(ts, i, Weights());
      sum := sum + ts[i].w;
    }
    assert ts[..|ts|] == ts;
  }

  // Over distinct variables SimplifyPB finds every literal that all solutions agree on.
  lemma UnitsComplete(c: Constr, i: nat)
    requires NonNegative(c.terms) && VarsApart(c.terms) && i < |c.terms|
    ensures WeightSum(c.terms) - c.terms[i].w < c.card <==> forall a: Assignment :: Met(c, a) ==> Holds(c.terms[i].l, a)
  {
    if WeightSum(c.terms) - c.terms[i].w >= c.card {
      NotForced(c, i);
    } else {
      forall a: Assignment | Met(c, a) ensures Holds(c.terms[i].l, a) {
        Forced(c, a, i);
      }
    }
  }

  // removeLit on the terms: the last one takes the place of the idx'th.
  function Removed(ts: seq<Term>, idx: nat): seq<Term>
    requires idx < |ts|
  {
    ts[idx := ts[|ts| - 1]][..|ts| - 1]
  }

  lemma RemovedSum(ts: seq<Term>, idx: nat, f: Term -> int)
    requires idx < |ts|
    ensures Sum(Removed(ts, idx), f) == Sum(ts, f) - f(ts[idx])
  {
    hide Sum, Removed;
    var n := |ts| - 1;
    LastTaken(ts, f);
    if idx == n {
      LastRemoved(ts);
    } else {
      RemovedParts(ts, idx);
      SumSplit(ts[..n], idx, f);
      SumSplit(Removed(ts, idx), idx, f);
    }
  }

  lemma LastTaken(ts: seq<Term>, f: Term -> int)
    requires ts != []
    ensures Sum(ts, f) == Sum(ts[..|ts| - 1], f) + f(ts[|ts| - 1])
  {
    hide Sum;
    Taken(ts, |ts| - 1, f);
    assert ts[..|ts|] == ts;
  }

  lemma LastRemoved(ts: seq<Term>)
    requires ts != []
    ensures Removed(ts, |ts| - 1) == ts[..|ts| - 1]
  {
  }

  lemma RemovedParts(ts: seq<Term>, idx: nat)
    requires idx < |ts| - 1
    ensures var n, r := |ts| - 1, Removed(ts, idx);
            |r| == n && r[..idx] == ts[..n][..idx] && r[idx] == ts[n] && r[idx + 1..] == ts[..n][idx + 1..]
  {
  }

  lemma RemovedElems(ts: seq<Term>, idx: nat)
    requires idx < |ts|
    ensures |Removed(ts, idx)| == |ts| - 1 && forall t :: t in Removed(ts, idx) ==> t in ts
    ensures forall k :: 0 <= k < idx ==> Removed(ts, idx)[k] == ts[k]
  {
  }

  // The stored degree never falls below 1.
  function Lowered(card: int, add: int): int { if card + add < 1 then 1 else card + add }

  // A constraint as an object whose literals are removed in place.
  class WeightedClause {
    var terms: seq<Term>
    var card: int

    constructor (terms: seq<Term>, card: int)
      ensures this.terms == terms && this.card == card
    {
      this.terms, this.card := terms, card;
    }

    function Value(): Constr
      reads this
    {
      Constr(terms, card)
    }

    method RemoveLit(idx: nat)
      requires idx < |terms|
      modifies this`terms
      ensures terms == Removed(old(terms), idx)
    {
      terms := terms[idx := terms[|terms| - 1]];
      terms := terms[..|terms| - 1];
    }

    method UpdateCardinality(add: int)
      requires card >= 1
      modifies this`card
      ensures card == Lowered(old(card), add)
    {
      if add < 0 && -add > card - 1 {
        card := 1;
      } else {
        card := card + add;
      }
    }
  }
}
