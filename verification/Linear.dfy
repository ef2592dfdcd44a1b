// Linear pseudo-boolean constraints: a sum of weighted literals that must reach a degree (solver/clause.go).
// The source keeps the literals and the weights in two slices of equal length that it always permutes
// together; here they are one sequence of terms.
module Linear {
  import opened Logic
  import opened Bindings

  datatype Term = Term(l: Lit, w: int)

  datatype Constr = Constr(terms: seq<Term>, card: int)

  ghost function Sum(ts: seq<Term>, f: Term -> int): int
  {
    if ts == [] then 0 else Sum(ts[..|ts| - 1], f) + f(ts[|ts| - 1])
  }

  function Weights(): Term -> int { (t: Term) => t.w }

  function TrueIn(a: Assignment): Term -> int { (t: Term) => if Holds(t.l, a) then t.w else 0 }

  function NotFalse(m: Model): Term -> int { (t: Term) => if False(m, t.l) then 0 else t.w }

  function TrueNow(m: Model): Term -> int { (t: Term) => if True(m, t.l) then t.w else 0 }

  // The largest sum any assignment can reach, for weights that are not negative.
  ghost function WeightSum(ts: seq<Term>): int { Sum(ts, Weights()) }

  ghost function TrueSum(ts: seq<Term>, a: Assignment): int { Sum(ts, TrueIn(a)) }

  // The weight that is not false yet under the bindings m.
  ghost function OpenSum(ts: seq<Term>, m: Model): int { Sum(ts, NotFalse(m)) }

  ghost predicate Met(c: Constr, a: Assignment) { TrueSum(c.terms, a) >= c.card }

  ghost predicate AllMet(cs: seq<Constr>, a: Assignment) { forall c :: c in cs ==> Met(c, a) }

  ghost predicate NonNegative(ts: seq<Term>) { forall t :: t in ts ==> t.w >= 0 }

  ghost predicate Positive(ts: seq<Term>) { forall t :: t in ts ==> t.w > 0 }

  ghost predicate Descending(ts: seq<Term>) { forall i, j :: 0 <= i < j < |ts| ==> ts[i].w >= ts[j].w }

  ghost predicate VarsApart(ts: seq<Term>) { forall i, j :: 0 <= i < j < |ts| ==> ts[i].l.v != ts[j].l.v }

  lemma {:induction false} SumConcat(ts: seq<Term>, us: seq<Term>, f: Term -> int)
    ensures Sum(ts + us, f) == Sum(ts, f) + Sum(us, f)
  {
    if us == [] {
      assert ts + us == ts;
    } else {
      SumConcat(ts, us[..|us| - 1], f);
      assert (ts + us)[..|ts + us| - 1] == ts + us[..|us| - 1];
    }
  }

  lemma Taken(ts: seq<Term>, i: nat, f: Term -> int)
    requires i < |ts|
    ensures Sum(ts[..i + 1], f) == Sum(ts[..i], f) + f(ts[i])
  {
    assert ts[..i + 1][..i] == ts[..i];
  }

  lemma SumSplit(ts: seq<Term>, i: nat, f: Term -> int)
    requires i < |ts|
    ensures Sum(ts, f) == Sum(ts[..i], f) + f(ts[i]) + Sum(ts[i + 1..], f)
  {
    Taken(ts, i, f);
    assert ts == ts[..i + 1] + ts[i + 1..];
    SumConcat(ts[..i + 1], ts[i + 1..], f);
  }

  lemma {:induction false} SumPermuted(ts: seq<Term>, us: seq<Term>, f: Term -> int)
    requires multiset(ts) == multiset(us)
    ensures Sum(ts, f) == Sum(us, f)
  {
    assert |ts| == |multiset(ts)| && |us| == |multiset(us)|;
    if ts != [] {
      var n := |ts| - 1;
      var t := ts[n];
      assert ts == ts[..n] + [t];
      assert t in multiset(us);
      var i :| 0 <= i < |us| && us[i] == t;
      assert us == us[..i] + [t] + us[i + 1..];
      assert multiset(us[..i] + us[i + 1..]) == multiset(us) - multiset{t};
      assert multiset(ts[..n]) == multiset(ts) - multiset{t};
      SumPermuted(ts[..n], us[..i] + us[i + 1..], f);
      SumConcat(us[..i], us[i + 1..], f);
      SumSplit(us, i, f);
    }
  }

  lemma {:induction false} SumMono(ts: seq<Term>, f: Term -> int, g: Term -> int)
    requires forall t :: t in ts ==> f(t) <= g(t)
    ensures Sum(ts, f) <= Sum(ts, g)
  {
    if ts != [] {
      assert forall t :: t in ts[..|ts| - 1] ==> t in ts;
      SumMono(ts[..|ts| - 1], f, g);
    }
  }

  lemma {:induction false} SumAgree(ts: seq<Term>, f: Term -> int, g: Term -> int)
    requires forall t :: t in ts ==> f(t) == g(t)
    ensures Sum(ts, f) == Sum(ts, g)
  {
    SumMono(ts, f, g);
    SumMono(ts, g, f);
  }

  lemma {:induction false} SumNonNegative(ts: seq<Term>, f: Term -> int)
    requires forall t :: t in ts ==> f(t) >= 0
    ensures Sum(ts, f) >= 0
  {
    if ts != [] {
      assert forall t :: t in ts[..|ts| - 1] ==> t in ts;
      SumNonNegative(ts[..|ts| - 1], f);
    }
  }

  // Removing one term leaves the rest of the sum.
  lemma SumWithout(ts: seq<Term>, i: nat, f: Term -> int)
    requires i < |ts|
    ensures Sum(ts[..i] + ts[i + 1..], f) == Sum(ts, f) - f(ts[i])
  {
    SumSplit(ts, i, f);
    SumConcat(ts[..i], ts[i + 1..], f);
  }

  // A literal whose loss leaves less than the degree is true in every solution.
  lemma Forced(c: Constr, a: Assignment, i: nat)
    requires NonNegative(c.terms) && i < |c.terms| && WeightSum(c.terms) - c.terms[i].w < c.card && Met(c, a)
    ensures Holds(c.terms[i].l, a)
  {
    SumSplit(c.terms, i, TrueIn(a));
    SumSplit(c.terms, i, Weights());
    SumMono(c.terms[..i], TrueIn(a), Weights());
    SumMono(c.terms[i + 1..], TrueIn(a), Weights());
  }

  // Over distinct variables the converse holds: a literal that is not needed is false in some solution.
  lemma NotForced(c: Constr, i: nat)
    requires VarsApart(c.terms) && i < |c.terms| && WeightSum(c.terms) - c.terms[i].w >= c.card
    ensures exists a: Assignment :: Met(c, a) && !Holds(c.terms[i].l, a)
  {
    var ts, l := c.terms, c.terms[i].l;
    var a := AllBut(ts, l);
    SumSplit(ts, i, TrueIn(a));
    SumSplit(ts, i, Weights());
    forall j | 0 <= j < |ts| && j != i ensures Holds(ts[j].l, a) {
      AllButHolds(ts, i, j);
    }
    SumAgree(ts[..i], TrueIn(a), Weights());
    SumAgree(ts[i + 1..], TrueIn(a), Weights());
    assert Met(c, a) && !Holds(l, a);
  }

  // Makes every literal of ts true but l.
  ghost function AllBut(ts: seq<Term>, l: Lit): Assignment
  {
    (v: nat) => if v == l.v then !l.pos else Lit(v, true) in LitsOf(ts)
  }

  lemma AllButHolds(ts: seq<Term>, i: nat, j: nat)
    requires VarsApart(ts) && i < |ts| && j < |ts| && i != j
    ensures Holds(ts[j].l, AllBut(ts, ts[i].l))
  {
    var l := ts[j].l;
    assert l.v != ts[i].l.v;
    assert ts[j] in ts;
    assert l in LitsOf(ts);
    forall t | t in ts && t.l.v == l.v ensures t.l == l {
      var k :| 0 <= k < |ts| && ts[k] == t;
      assert k == j;
    }
    assert l.pos ==> l == Lit(l.v, true);
  }

  function LitsOf(ts: seq<Term>): set<Lit> { set t | t in ts :: t.l }

  lemma CountedTwice(us: seq<Term>, i: nat, j: nat)
    requires i < j < |us| && us[i] == us[j]
    ensures multiset(us)[us[i]] >= 2
  {
    assert us == us[..j] + [us[j]] + us[j + 1..];
    assert us[..j][i] == us[i];
  }

  lemma CountedOnce(ts: seq<Term>, k: nat)
    requires VarsApart(ts) && k < |ts|
    ensures multiset(ts)[ts[k]] == 1
  {
    assert ts == ts[..k] + [ts[k]] + ts[k + 1..];
    assert ts[k] !in ts[..k] && ts[k] !in ts[k + 1..];
  }

  // Distinct variables stay distinct in any order.
  lemma ApartPermuted(ts: seq<Term>, us: seq<Term>)
    requires multiset(ts) == multiset(us) && VarsApart(ts)
    ensures VarsApart(us)
  {
    forall i, j | 0 <= i < j < |us| ensures us[i].l.v != us[j].l.v {
      assert us[i] in multiset(ts) && us[j] in multiset(ts);
      var k :| 0 <= k < |ts| && ts[k] == us[i];
      var l :| 0 <= l < |ts| && ts[l] == us[j];
      CountedOnce(ts, k);
      if us[i] == us[j] {
        CountedTwice(us, i, j);
      }
    }
  }
}
