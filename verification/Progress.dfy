// Why one call of propagateAndSearch ends: the numbers of variables bound at levels 1, 2, 3, ..., pending
// literal included, grow lexicographically. They are read here as the digits of a number in base
// nbVars + 1, level 1 first, so that growth is plain increase of a bounded number.
module Progress {
  import opened Logic
  import opened Bindings
  import opened State
  import opened Backjump

  // The value of one variable bound at level l.
  ghost function Digit(n: nat, l: nat): nat
    decreases n + 2 - l
  {
    if l >= n + 2 then 1 else (n + 1) * Digit(n, l + 1)
  }

  ghost function Worth(n: nat, m: Model, v: nat): nat { if Level(m, v) == 0 then 0 else Digit(n, Level(m, v)) }

  // The first k variables together.
  ghost function Sum(n: nat, m: Model, k: nat): nat { if k == 0 then 0 else Sum(n, m, k - 1) + Worth(n, m, k - 1) }

  // The progress of a state about to bind a literal at level lvl.
  ghost function Reached(n: nat, s: Core, lvl: nat): nat { Sum(n, s.model, |s.model|) + Digit(n, lvl) }

  ghost function Limit(n: nat): nat { (n + 1) * Digit(n, 1) }

  lemma MulStep(k: nat, d: nat)
    ensures (k + 1) * d == k * d + d
  {
  }

  lemma MulMono(k: nat, n: nat, d: nat)
    requires k <= n
    ensures k * d <= n * d
  {
  }

  lemma {:induction false} DigitMono(n: nat, l: nat, k: nat)
    requires l <= k
    ensures Digit(n, l) >= Digit(n, k) >= 1
    decreases if l <= n + 2 then n + 2 - l else 0, k - l
  {
    if l < n + 2 {
      DigitMono(n, l + 1, if l < k then k else l + 1);
      MulMono(1, n + 1, Digit(n, l + 1));
    }
  }

  // Binding more variables only adds; one of them adds its digit.
  lemma {:induction false} SumGrows(n: nat, m: Model, m': Model, v: nat, k: nat)
    requires Extends(m, m') && v < |m| && Level(m, v) == 0 && k <= |m|
    ensures Sum(n, m', k) >= Sum(n, m, k) + if v < k then Worth(n, m', v) else 0
  {
    if k > 0 {
      SumGrows(n, m, m', v, k - 1);
    }
  }

  lemma {:induction false} SumBound(n: nat, m: Model, k: nat)
    ensures Sum(n, m, k) <= k * Digit(n, 1)
  {
    if k > 0 {
      SumBound(n, m, k - 1);
      if Level(m, k - 1) > 0 {
        DigitMono(n, 1, Level(m, k - 1));
      }
      MulStep(k - 1, Digit(n, 1));
    }
  }

  // m' is m without the variables bound above level b.
  ghost predicate CutOff(m: Model, m': Model, b: nat)
  {
    forall v: nat :: Level(m', v) == if Level(m, v) <= b then Level(m, v) else 0
  }

  // What is cut off is worth at most a digit of the level after b for each variable.
  lemma {:induction false} SumCut(n: nat, m: Model, m': Model, b: nat, k: nat)
    requires CutOff(m, m', b)
    ensures Sum(n, m, k) <= Sum(n, m', k) + k * Digit(n, b + 1)
  {
    if k > 0 {
      SumCut(n, m, m', b, k - 1);
      if Level(m, k - 1) > b {
        DigitMono(n, b + 1, Level(m, k - 1));
      }
      MulStep(k - 1, Digit(n, b + 1));
    }
  }

  lemma ReachedBounded(n: nat, s: Core, lvl: nat)
    requires |s.model| == n && lvl >= 1
    ensures Reached(n, s, lvl) <= Limit(n)
  {
    SumBound(n, s.model, n);
    DigitMono(n, 1, lvl);
    MulStep(n, Digit(n, 1));
  }

  // ----- levels in use -----

  ghost predicate InUse(m: Model, l: nat) { exists v: nat :: v < |m| && Level(m, v) == l }

  // Every level from 2 up to the one before lvl has a bound variable.
  ghost predicate Contiguous(s: Core, lvl: nat)
  {
    forall l: nat :: 2 <= l < lvl ==> InUse(s.model, l)
  }

  ghost function LevelSet(m: Model, k: nat): set<nat> { if k == 0 then {} else LevelSet(m, k - 1) + {Level(m, k - 1)} }

  lemma {:induction false} LevelSetCard(m: Model, k: nat)
    ensures |LevelSet(m, k)| <= k
    ensures forall v: nat :: v < k ==> Level(m, v) in LevelSet(m, k)
  {
    if k > 0 {
      LevelSetCard(m, k - 1);
    }
  }

  ghost function UsedLevels(lvl: nat): set<nat> { if lvl <= 2 then {} else UsedLevels(lvl - 1) + {lvl - 1} }

  lemma {:induction false} UsedCard(lvl: nat)
    ensures |UsedLevels(lvl)| == if lvl >= 2 then lvl - 2 else 0
    ensures forall l :: l in UsedLevels(lvl) ==> 2 <= l < lvl
  {
    if lvl > 2 {
      UsedCard(lvl - 1);
    }
  }

  // The pending level never exceeds the number of variables plus two.
  lemma LevelBound(s: Core, lvl: nat)
    requires Contiguous(s, lvl)
    ensures lvl <= |s.model| + 2
  {
    UsedCard(lvl);
    LevelSetCard(s.model, |s.model|);
    forall l | l in UsedLevels(lvl) ensures l in LevelSet(s.model, |s.model|) {
      assert InUse(s.model, l);
    }
    SubsetCard(UsedLevels(lvl), LevelSet(s.model, |s.model|));
  }

  // ----- the three kinds of progress -----

  // s1 is s with the pending literal and more literals bound at lvl.
  ghost predicate Unified(s: Core, s1: Core, lit: Lit, lvl: nat)
  {
    lit.v < |s.model| && lit.v < |s.reason| && Grown(Pushed(s, lit, lvl, s.reason[lit.v]), s1, lvl)
    && s.model[lit.v] == 0 && lvl >= 1
  }

  lemma UnifiedSum(n: nat, s: Core, s1: Core, lit: Lit, lvl: nat)
    requires Unified(s, s1, lit, lvl)
    ensures |s1.model| == |s.model| && Sum(n, s1.model, |s1.model|) >= Reached(n, s, lvl)
    ensures forall v: nat :: v < |s.model| && Level(s.model, v) > 0 ==> Level(s1.model, v) == Level(s.model, v)
    ensures Level(s1.model, lit.v) == lvl
  {
    var p := Pushed(s, lit, lvl, s.reason[lit.v]);
    assert p.model[lit.v] == SignedLevel(lit, lvl) == s1.model[lit.v];
    forall v | 0 <= v < |s.model| && s.model[v] != 0 ensures s1.model[v] == s.model[v] {
      assert p.model[v] == s.model[v];
    }
    SumGrows(n, s.model, s1.model, lit.v, |s.model|);
  }

  // No conflict: the next decision goes one level deeper.
  lemma DeeperProgress(n: nat, s: Core, s1: Core, lit: Lit, lvl: nat)
    requires Unified(s, s1, lit, lvl) && Contiguous(s, lvl)
    ensures Reached(n, s, lvl) < Reached(n, s1, lvl + 1)
    ensures Contiguous(s1, lvl + 1)
  {
    UnifiedSum(n, s, s1, lit, lvl);
    DigitMono(n, lvl + 1, lvl + 1);
    forall l: nat | 2 <= l < lvl + 1 ensures InUse(s1.model, l) {
      assert l < lvl ==> InUse(s.model, l);
    }
  }

  // A backjump to b binds one more literal at b.
  lemma BackjumpProgress(s: Core, s1: Core, s2: Core, lit: Lit, lvl: nat, i: nat, b: nat)
    requires Unified(s, s1, lit, lvl) && Contiguous(s, lvl)
    requires Cut(s1, s2, i, b) && TrailOk(s1.model, s1.trail) && |s1.reason| == |s1.model| && 1 <= b < lvl
    ensures Reached(|s.model|, s, lvl) < Reached(|s.model|, s2, b) && Contiguous(s2, b)
  {
    var n := |s.model|;
    UnifiedSum(n, s, s1, lit, lvl);
    LevelBound(s, lvl);
    CutLevels(s1, s2, i, b);
    assert |s2.model| == n;
    hide Unified, Cut, TrailOk, Level, Sum, Digit, CutOff;
    CutSum(n, s1.model, s2.model, b);
    forall l: nat | 2 <= l < b ensures InUse(s2.model, l) {
      assert InUse(s.model, l);
      StillUsed(s.model, s1.model, s2.model, l, b);
    }
  }

  lemma StillUsed(m: Model, m1: Model, m2: Model, l: nat, b: nat)
    requires InUse(m, l) && 0 < l <= b && CutOff(m1, m2, b) && |m| == |m2|
    requires forall v: nat :: v < |m| && Level(m, v) > 0 ==> Level(m1, v) == Level(m, v)
    ensures InUse(m2, l)
  {
    hide Level;
    var v: nat :| v < |m| && Level(m, v) == l;
    assert Level(m2, v) == l;
  }

  // The pending literal outweighs all that a backjump to b gives up.
  lemma CutSum(n: nat, m: Model, m': Model, b: nat)
    requires CutOff(m, m', b) && |m| == |m'| == n && b <= n + 1
    ensures Sum(n, m, n) < Sum(n, m', n) + Digit(n, b)
  {
    SumCut(n, m, m', b, n);
    MulStep(n, Digit(n, b + 1));
    DigitMono(n, b + 1, b + 1);
  }

  lemma CutLevels(s: Core, s': Core, i: nat, lvl: nat)
    requires Cut(s, s', i, lvl) && TrailOk(s.model, s.trail) && |s.reason| == |s.model|
    ensures CutOff(s.model, s'.model, lvl)
  {
    forall v: nat ensures Level(s'.model, v) == if Level(s.model, v) <= lvl then Level(s.model, v) else 0 {
      if v < |s.model| && s.model[v] != 0 {
        var l := Lit(v, s.model[v] > 0);
        assert True(s.model, l);
        CutBinding(s, s', i, lvl, l);
        CutBinding(s, s', i, lvl, l.Neg());
      }
    }
  }

  // A learned literal is bound at level 1; the next decision is at level 2.
  lemma UnitProgress(s: Core, s1: Core, s2: Core, s3: Core, lit: Lit, lvl: nat, i: nat, unit: Lit)
    requires Unified(s, s1, lit, lvl) && Contiguous(s, lvl)
    requires Cut(s1, s2, i, 1) && TrailOk(s1.model, s1.trail) && |s1.reason| == |s1.model| && 1 < lvl
    requires Unified(s2, s3, unit, 1)
    ensures Reached(|s.model|, s, lvl) < Reached(|s.model|, s3, 2) && Contiguous(s3, 2)
  {
    var n := |s.model|;
    BackjumpProgress(s, s1, s2, lit, lvl, i, 1);
    UnifiedSum(n, s2, s3, unit, 1);
    DigitMono(n, 2, 2);
  }
}
