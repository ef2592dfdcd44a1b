// Normalisation of linear inequalities over literals, in place (solver/pb.go): GtEq, LtEq and Eq.
module PbConstr {
  import opened Logic
  import opened Bindings
  import opened Linear

  // The first len terms of the array.
  ghost function Terms(ts: array<Term>, len: nat): seq<Term>
    reads ts
    requires len <= ts.Length
  {
    ts[..len]
  }

  // append(s[:i], s[i+1:]...) on the first len terms.
  method RemoveAt(ts: array<Term>, len: nat, i: nat)
    requires i < len <= ts.Length
    modifies ts
    ensures Terms(ts, len - 1) == old(ts[..i] + ts[i + 1..len])
  {
    for k := i to len - 1
      invariant forall j :: 0 <= j < ts.Length ==> ts[j] == if i <= j < k then old(ts[j + 1]) else old(ts[j])
    {
      ts[k] := ts[k + 1];
    }
  }

  function Flipped(t: Term): Term { Term(t.l.Neg(), -t.w) }

  lemma SetTerm(ts: seq<Term>, i: nat, t: Term, f: Term -> int)
    requires i < |ts|
    ensures Sum(ts[i := t], f) == Sum(ts, f) - f(ts[i]) + f(t)
  {
    SumSplit(ts, i, f);
    SumSplit(ts[i := t], i, f);
    assert ts[i := t][..i] == ts[..i] && ts[i := t][i + 1..] == ts[i + 1..];
  }

  // Flipping the sign of a weight together with its literal raises every sum by the new weight.
  lemma FlipTerm(ts: seq<Term>, i: nat, a: Assignment)
    requires i < |ts|
    ensures TrueSum(ts[i := Flipped(ts[i])], a) == TrueSum(ts, a) - ts[i].w
  {
    SetTerm(ts, i, Flipped(ts[i]), TrueIn(a));
  }

  // The two inequalities leave the same room below the sum, whatever the assignment.
  ghost predicate SameGap(ts: seq<Term>, n: int, ts': seq<Term>, n': int)
  {
    forall a: Assignment :: TrueSum(ts, a) - n == TrueSum(ts', a) - n'
  }

  ghost function VarSet(ts: seq<Term>): set<nat> { set t | t in ts :: t.l.v }

  // Makes every weight positive. The sum minus the bound stays the same for every assignment.
  method GtEq(ts: array<Term>, len: nat, n: int) returns (len': nat, n': int)
    requires len <= ts.Length
    modifies ts
    ensures len' <= len && Positive(Terms(ts, len')) && VarSet(Terms(ts, len')) <= VarSet(old(Terms(ts, len)))
    ensures SameGap(old(Terms(ts, len)), n, Terms(ts, len'), n')
  {
    hide TrueSum;
    len', n' := len, n;
    var i := 0;
    while i < len'
      invariant i <= len' <= len
      invariant forall k :: 0 <= k < i ==> ts[k].w > 0
      invariant SameGap(old(Terms(ts, len)), n, Terms(ts, len'), n')
      invariant VarSet(Terms(ts, len')) <= VarSet(old(Terms(ts, len)))
      decreases len' - i
    {
      ghost var before := Terms(ts, len');
      if ts[i].w < 0 {
        n' := n' - ts[i].w;
        ts[i] := Term(ts[i].l.Neg(), -ts[i].w);
        assert Terms(ts, len') == before[i := Flipped(before[i])];
        forall a: Assignment { FlipTerm(before, i, a); }
      }
      if ts[i].w == 0 {
        ghost var here := Terms(ts, len');
        RemoveAt(ts, len', i);
        len' := len' - 1;
        assert Terms(ts, len') == here[..i] + here[i + 1..];
        forall a: Assignment { WithoutZero(here, i, a); }
        assert forall k :: 0 <= k < i ==> ts[k] == here[k];
      } else {
        i := i + 1;
      }
    }
    assert forall t :: t in Terms(ts, len') ==> t.w > 0;
  }

  lemma WithoutZero(ts: seq<Term>, i: nat, a: Assignment)
    requires i < |ts| && ts[i].w == 0
    ensures TrueSum(ts[..i] + ts[i + 1..], a) == TrueSum(ts, a)
  {
    SumWithout(ts, i, TrueIn(a));
  }

  function Negated(ts: seq<Term>): (r: seq<Term>)
    ensures |r| == |ts|
  {
    seq(|ts|, i requires 0 <= i < |ts| => Term(ts[i].l.Neg(), ts[i].w))
  }

  // The false literals weigh what the true ones do not.
  lemma {:induction false} NegatedSum(ts: seq<Term>, a: Assignment)
    ensures TrueSum(Negated(ts), a) == WeightSum(ts) - TrueSum(ts, a)
  {
    if ts != [] {
      var n := |ts| - 1;
      NegatedSum(ts[..n], a);
      assert Negated(ts)[..n] == Negated(ts[..n]);
    }
  }

  // A sum of at most n, as a sum of at least n'.
  method LtEq(ts: array<Term>, len: nat, n: int) returns (len': nat, n': int)
    requires len <= ts.Length
    modifies ts
    ensures len' <= len && Positive(Terms(ts, len'))
    ensures forall a: Assignment :: TrueSum(Terms(ts, len'), a) - n' == n - TrueSum(old(Terms(ts, len)), a)
  {
    var sum := 0;
    ghost var ts0 := Terms(ts, len);
    for i := 0 to len
      invariant sum == WeightSum(ts0[..i])
      invariant forall k :: 0 <= k < len ==> ts[k] == if k < i then Negated(ts0)[k] else ts0[k]
    {
      Taken(ts0, i, Weights());
      sum := sum + ts[i].w;
      ts[i] := Term(ts[i].l.Neg(), ts[i].w);
    }
    assert ts0[..len] == ts0 && Terms(ts, len) == Negated(ts0);
    len', n' := GtEq(ts, len, sum - n);
    forall a: Assignment ensures TrueSum(Terms(ts, len'), a) - n' == n - TrueSum(ts0, a) {
      NegatedSum(ts0, a);
    }
  }

  // A sum of exactly n, as the inequalities among "at least" and "at most" that say something.
  method Eq(ts: array<Term>, len: nat, n: int) returns (res: seq<Constr>)
    requires len <= ts.Length
    modifies ts
    ensures forall a: Assignment :: AllMet(res, a) <==> TrueSum(old(Terms(ts, len)), a) == n
    ensures forall c :: c in res ==> c.card > 0 && Positive(c.terms)
  {
    ghost var ts0 := Terms(ts, len);
    var copy := new Term[len](i requires 0 <= i < len reads ts => ts[i]);
    assert copy[..len] == ts0;
    var geLen, ge := GtEq(copy, len, n);
    assert Terms(ts, len) == ts0;
    var leLen, le := LtEq(ts, len, n);
    res := [];
    if ge > 0 {
      res := res + [Constr(copy[..geLen], ge)];
    }
    if le > 0 {
      res := res + [Constr(ts[..leLen], le)];
    }
    forall a: Assignment ensures AllMet(res, a) <==> TrueSum(ts0, a) == n {
      SumNonNegative(copy[..geLen], TrueIn(a));
      SumNonNegative(ts[..leLen], TrueIn(a));
      assert Met(Constr(copy[..geLen], ge), a) <==> TrueSum(ts0, a) >= n;
      assert Met(Constr(ts[..leLen], le), a) <==> TrueSum(ts0, a) <= n;
      assert ge > 0 ==> Constr(copy[..geLen], ge) in res;
      assert le > 0 ==> Constr(ts[..leLen], le) in res;
    }
  }
}
