// When to restart: solver/lbd.go. Averages over the last values are kept up to date in constant time; here they are
// exact reals, and shown to be the averages of the last values added.
module LbdStats {

  const NbMaxRecent: nat := 50
  const NbMaxTrail: nat := 5000

  // queueData together with the array of its recent values.
  datatype Window = Window(totalNb: nat, totalSum: int, nbRecent: nat, ptr: nat, recentAvg: real, vals: seq<int>)

  ghost function Sum(h: seq<int>): int { if h == [] then 0 else Sum(h[..|h| - 1]) + h[|h| - 1] }

  lemma {:induction false} SumConcat(a: seq<int>, b: seq<int>)
    ensures Sum(a + b) == Sum(a) + Sum(b)
  {
    if b == [] {
      assert a + b == a;
    } else {
      SumConcat(a, b[..|b| - 1]);
      assert (a + b)[..|a + b| - 1] == a + b[..|b| - 1];
    }
  }

  // The values added since the window was last cleared, at most as many as it holds.
  ghost function Last(h: seq<int>, start: nat, cap: nat): seq<int>
    requires start <= |h|
  {
    if |h| - start <= cap then h[start..] else h[|h| - cap..]
  }

  ghost function Mean(h: seq<int>): real
    requires h != []
  {
    Sum(h) as real / |h| as real
  }

  // The window stands for all values h, of which those from position start on came after the last clearing. Once full,
  // it goes round, ptr being the place of the oldest value.
  ghost predicate Stands(w: Window, cap: nat, h: seq<int>, start: nat)
  {
    start <= |h| && |w.vals| == cap && w.totalNb == |h| && w.totalSum == Sum(h) && w.nbRecent == |Last(h, start, cap)|
    && w.recentAvg * w.nbRecent as real == Sum(Last(h, start, cap)) as real
    && (w.nbRecent < cap ==> w.ptr == 0 && w.vals[..w.nbRecent] == Last(h, start, cap))
    && (w.nbRecent == cap ==> w.ptr < cap && w.vals[w.ptr..] + w.vals[..w.ptr] == Last(h, start, cap))
  }

  lemma AverageMore(avg: real, n: nat, x: int, sum: int)
    requires avg * n as real == sum as real
    ensures ((avg * n as real) / (n + 1) as real + x as real / (n + 1) as real) * (n + 1) as real == (sum + x) as real
  {
    var d := (n + 1) as real;
    assert (sum as real / d + x as real / d) * d == sum as real + x as real;
  }

  lemma AverageReplaced(avg: real, n: nat, x: int, y: int, sum: int)
    requires n > 0 && avg * n as real == sum as real
    ensures (avg - y as real / n as real + x as real / n as real) * n as real == (sum - y + x) as real
  {
    var d := n as real;
    assert (y as real / d) * d == y as real && (x as real / d) * d == x as real;
  }

  lemma SumMore(h: seq<int>, x: int)
    ensures Sum(h + [x]) == Sum(h) + x
  {
    assert (h + [x])[..|h|] == h;
  }

  lemma SumReplaced(h: seq<int>, x: int)
    requires h != []
    ensures Sum(h[1..] + [x]) == Sum(h) - h[0] + x
  {
    var first: seq<int> := [];
    SumMore(h[1..], x);
    SumMore(first, h[0]);
    assert h == (first + [h[0]]) + h[1..];
    SumConcat(first + [h[0]], h[1..]);
  }

  lemma LastMore(h: seq<int>, start: nat, cap: nat, x: int)
    requires start <= |h| && cap > 0
    ensures var last := Last(h, start, cap);
            Last(h + [x], start, cap) == if |last| < cap then last + [x] else last[1..] + [x]
  {
  }

  lemma StandsMore(w: Window, w': Window, cap: nat, h: seq<int>, start: nat, x: int)
    requires cap > 0 && Stands(w, cap, h, start) && w.nbRecent < cap
    requires w'.totalNb == w.totalNb + 1 && w'.totalSum == w.totalSum + x && w'.nbRecent == w.nbRecent + 1 && w'.ptr == w.ptr
    requires w'.vals == w.vals[w.nbRecent := x]
    requires w'.recentAvg == (w.recentAvg * w.nbRecent as real) / w'.nbRecent as real + x as real / w'.nbRecent as real
    ensures Stands(w', cap, h + [x], start)
  {
    hide Sum;
    var n, last := w.nbRecent, Last(h, start, cap);
    LastMore(h, start, cap, x);
    SumMore(h, x);
    SumMore(last, x);
    AverageMore(w.recentAvg, n, x, Sum(last));
    hide Last;
    assert w'.vals[..n + 1] == w.vals[..n] + [x];
    assert n + 1 == cap ==> w'.vals[0..] + w'.vals[..0] == w'.vals[..n + 1];
  }

  lemma StandsReplaced(w: Window, w': Window, cap: nat, h: seq<int>, start: nat, x: int)
    requires cap > 0 && Stands(w, cap, h, start) && w.nbRecent == cap
    requires w'.totalNb == w.totalNb + 1 && w'.totalSum == w.totalSum + x && w'.nbRecent == w.nbRecent
    requires w'.vals == w.vals[w.ptr := x] && w'.ptr == if w.ptr + 1 == cap then 0 else w.ptr + 1
    requires w'.recentAvg == w.recentAvg - w.vals[w.ptr] as real / cap as real + x as real / cap as real
    ensures Stands(w', cap, h + [x], start)
  {
    hide Sum;
    var last := Last(h, start, cap);
    assert last[0] == w.vals[w.ptr];
    LastMore(h, start, cap, x);
    Rotated(w.vals, w.ptr, x);
    SumMore(h, x);
    StandsAverage(w, w', cap, last, x);
    hide Last;
  }

  lemma StandsAverage(w: Window, w': Window, cap: nat, last: seq<int>, x: int)
    requires cap > 0 && |last| == cap && w.ptr < |w.vals| && last[0] == w.vals[w.ptr]
    requires w.recentAvg * cap as real == Sum(last) as real
    requires w'.recentAvg == w.recentAvg - w.vals[w.ptr] as real / cap as real + x as real / cap as real
    ensures w'.recentAvg * cap as real == Sum(last[1..] + [x]) as real
  {
    hide Sum;
    SumReplaced(last, x);
    AverageReplaced(w.recentAvg, cap, x, last[0], Sum(last));
  }

  // Overwriting the oldest value and moving on drops the first and appends the new one.
  lemma Rotated(vals: seq<int>, ptr: nat, x: int)
    requires ptr < |vals|
    ensures var vals' := vals[ptr := x]; var ptr' := if ptr + 1 == |vals| then 0 else ptr + 1;
            vals'[ptr'..] + vals'[..ptr'] == (vals[ptr..] + vals[..ptr])[1..] + [x]
  {
    var vals' := vals[ptr := x];
    if ptr + 1 == |vals| {
      assert vals'[0..] + vals'[..0] == vals[..ptr] + [x];
      assert (vals[ptr..] + vals[..ptr])[1..] == vals[..ptr];
    } else {
      assert vals'[ptr + 1..] == vals[ptr + 1..] && vals'[..ptr + 1] == vals[..ptr] + [x];
      assert (vals[ptr..] + vals[..ptr])[1..] == vals[ptr + 1..] + vals[..ptr];
    }
  }

  // The last fifty block distances since the last clearing are much smaller than all of them.
  ghost predicate Fires(h: seq<int>, start: nat)
  {
    |h| >= start + NbMaxRecent && Mean(h[|h| - NbMaxRecent..]) * 0.8 > Mean(h)
  }

  // The last trail length, the one of the conflict at hand, is much longer than the last five thousand on average.
  ghost predicate Postpones(trails: seq<int>, lbds: seq<int>, since: nat)
  {
    |trails| >= NbMaxTrail && |lbds| >= since + NbMaxRecent
    && trails[|trails| - 1] > (1.4 * Mean(trails[|trails| - NbMaxTrail..])).Floor
  }

  // One more value, in constant time: addConflict and addLbd do the same with their windows.
  method Push(w0: Window, cap: nat, x: int, ghost h: seq<int>, ghost start: nat) returns (w: Window)
    requires cap > 0 && Stands(w0, cap, h, start)
    ensures Stands(w, cap, h + [x], start)
  {
    WindowSize(w0, cap, h, start);
    w := w0.(totalNb := w0.totalNb + 1, totalSum := w0.totalSum + x);
    if w.nbRecent < cap {
      var oldNb, newNb := w.nbRecent as real, (w.nbRecent + 1) as real;
      w := w.(vals := w.vals[w.nbRecent := x], recentAvg := (w.recentAvg * oldNb) / newNb + x as real / newNb,
              nbRecent := w.nbRecent + 1);
      hide Stands;
      StandsMore(w0, w, cap, h, start, x);
    } else {
      var oldest := w.vals[w.ptr];
      w := w.(vals := w.vals[w.ptr := x], ptr := if w.ptr + 1 == cap then 0 else w.ptr + 1,
              recentAvg := w.recentAvg - oldest as real / cap as real + x as real / cap as real);
      hide Stands;
      StandsReplaced(w0, w, cap, h, start, x);
    }
  }

  class LbdStats {
    var lbdData: Window
    var trailData: Window
    ghost var lbds: seq<int>    // all block distances added
    ghost var since: nat        // how many of them before the last clearing
    ghost var trails: seq<int>  // all trail lengths added

    ghost predicate Valid()
      reads this
    {
      since <= |lbds| && Stands(lbdData, NbMaxRecent, lbds, since) && Stands(trailData, NbMaxTrail, trails, 0)
    }

    constructor ()
      ensures Valid() && lbds == [] && since == 0 && trails == []
    {
      lbdData := Window(0, 0, 0, 0, 0.0, seq(NbMaxRecent, _ => 0));
      trailData := Window(0, 0, 0, 0, 0.0, seq(NbMaxTrail, _ => 0));
      lbds, since, trails := [], 0, [];
    }

    // mustRestart
    predicate MustRestart()
      requires Valid()
      reads this
    {
      lbdData.nbRecent >= NbMaxRecent
      && lbdData.recentAvg * 0.8 > lbdData.totalSum as real / lbdData.totalNb as real
    }

    lemma FiresIs()
      requires Valid()
      ensures MustRestart() <==> Fires(lbds, since)
    {
      WindowSize(lbdData, NbMaxRecent, lbds, since);
      if lbdData.nbRecent == NbMaxRecent {
        MeanIs(lbdData, NbMaxRecent, lbds, since);
      }
      LastSize(lbdData, NbMaxRecent, lbds, since);
      hide Mean, Stands;
    }

    // addConflict: a full window of trail lengths and one much longer now postpones the next restart.
    method AddConflict(trailSz: nat)
      requires Valid()
      modifies this
      ensures Valid() && trails == old(trails) + [trailSz] && lbds == old(lbds)
      ensures since == if Postpones(trails, lbds, old(since)) then |lbds| else old(since)
    {
      hide Stands;
      trailData := Push(trailData, NbMaxTrail, trailSz, trails, 0);
      trails := trails + [trailSz];
      PostponesIs();
      if trailData.nbRecent == NbMaxTrail && lbdData.nbRecent == NbMaxRecent && trailSz > (1.4 * trailData.recentAvg).Floor {
        Clear();
      }
    }

    lemma PostponesIs()
      requires Valid() && trails != []
      ensures Postpones(trails, lbds, since)
              <==> trailData.nbRecent == NbMaxTrail && lbdData.nbRecent == NbMaxRecent
                   && trails[|trails| - 1] > (1.4 * trailData.recentAvg).Floor
    {
      WindowSize(trailData, NbMaxTrail, trails, 0);
      WindowSize(lbdData, NbMaxRecent, lbds, since);
      if trailData.nbRecent == NbMaxTrail {
        MeanIs(trailData, NbMaxTrail, trails, 0);
      }
      LastSize(trailData, NbMaxTrail, trails, 0);
      LastSize(lbdData, NbMaxRecent, lbds, since);
      hide Mean, Stands;
    }

    // addLbd
    method AddLbd(lbd: nat)
      requires Valid()
      modifies this`lbdData, this`lbds
      ensures Valid() && lbds == old(lbds) + [lbd]
    {
      hide Stands;
      lbdData := Push(lbdData, NbMaxRecent, lbd, lbds, since);
      lbds := lbds + [lbd];
    }

    // clear
    method Clear()
      requires Valid()
      modifies this`lbdData, this`since
      ensures Valid() && since == |lbds|
    {
      assert lbds[|lbds|..] == [];
      lbdData := lbdData.(ptr := 0, nbRecent := 0, recentAvg := 0.0);
      since := |lbds|;
    }
  }

  lemma LastSize(w: Window, cap: nat, h: seq<int>, start: nat)
    requires Stands(w, cap, h, start)
    ensures w.nbRecent == cap <==> |h| >= start + cap
  {
  }

  lemma Quotient(avg: real, n: nat, sum: real)
    requires n > 0 && avg * n as real == sum
    ensures avg == sum / n as real
  {
  }

  lemma MeanIs(w: Window, cap: nat, h: seq<int>, start: nat)
    requires Stands(w, cap, h, start) && w.nbRecent == cap > 0
    ensures |h| >= cap && Mean(h[|h| - cap..]) == w.recentAvg && Mean(h) == w.totalSum as real / w.totalNb as real
  {
    hide Sum;
    assert Last(h, start, cap) == h[|h| - cap..];
    Quotient(w.recentAvg, cap, Sum(Last(h, start, cap)) as real);
  }

  lemma WindowSize(w: Window, cap: nat, h: seq<int>, start: nat)
    requires Stands(w, cap, h, start)
    ensures w.nbRecent <= cap == |w.vals| && (w.nbRecent == cap && cap > 0 ==> w.ptr < cap)
  {
  }
}
