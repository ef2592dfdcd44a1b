// Watching of pseudo-boolean constraints, the PB half of solver/watcher.go.
module PbWatch {
  import opened Logic
  import opened Bindings
  import opened Linear
  import opened Resolution

  type Lists = map<Lit, seq<nat>>

  // ----- what the watches guarantee -----

  ghost function WatchedSum(ts: seq<Term>, ws: seq<bool>): int
    requires |ts| == |ws|
  {
    if ts == [] then 0
    else var n := |ts| - 1; WatchedSum(ts[..n], ws[..n]) + if ws[n] then ts[n].w else 0
  }

  // No watched literal is false through a literal of `done`.
  ghost predicate Clear(ts: seq<Term>, ws: seq<bool>, m: Model, done: set<Lit>)
    requires |ts| == |ws|
  {
    forall k :: 0 <= k < |ts| && ws[k] && False(m, ts[k].l) ==> ts[k].l.Neg() !in done
  }

  // Either the watched literals are clear and weigh more than the degree, or the true literals reach it.
  ghost predicate Covered(c: Constr, ws: seq<bool>, m: Model, done: set<Lit>)
  {
    |ws| == |c.terms|
    && ((Clear(c.terms, ws, m, done) && WatchedSum(c.terms, ws) > c.card) || Sum(c.terms, TrueNow(m)) >= c.card)
  }

  // The same at every level the search may go back to.
  ghost predicate CoveredUpTo(c: Constr, ws: seq<bool>, m: Model, done: set<Lit>)
  {
    forall b: nat :: Covered(c, ws, UpTo(m, b), done)
  }

  lemma {:induction false} WatchedOpen(ts: seq<Term>, ws: seq<bool>, m: Model)
    requires |ts| == |ws| && NonNegative(ts) && forall k :: 0 <= k < |ts| && ws[k] ==> !False(m, ts[k].l)
    ensures WatchedSum(ts, ws) <= OpenSum(ts, m)
  {
    if ts != [] {
      var n := |ts| - 1;
      assert ts[n] in ts && forall t :: t in ts[..n] ==> t in ts;
      WatchedOpen(ts[..n], ws[..n], m);
    }
  }

  // Once every true literal has been propagated, a covered constraint is not falsified.
  lemma CoveredOpen(c: Constr, ws: seq<bool>, m: Model, done: set<Lit>)
    requires Covered(c, ws, m, done) && NonNegative(c.terms) && forall l: Lit :: True(m, l) ==> l in done
    ensures OpenSum(c.terms, m) >= c.card
  {
    if Clear(c.terms, ws, m, done) && WatchedSum(c.terms, ws) > c.card {
      forall k | 0 <= k < |ws| && ws[k] ensures !False(m, c.terms[k].l) {
        assert False(m, c.terms[k].l) ==> True(m, c.terms[k].l.Neg());
      }
      WatchedOpen(c.terms, ws, m);
    } else {
      SumMono(c.terms, TrueNow(m), NotFalse(m));
    }
  }

  // Propagation that ends without conflict leaves no constraint falsified, here or at any level below.
  lemma NoConflictMissed(c: Constr, ws: seq<bool>, m: Model, done: set<Lit>, b: nat)
    requires CoveredUpTo(c, ws, m, done) && NonNegative(c.terms) && forall l: Lit :: True(m, l) ==> l in done
    ensures OpenSum(c.terms, UpTo(m, b)) >= c.card
  {
    assert Covered(c, ws, UpTo(m, b), done);
    forall l: Lit | True(UpTo(m, b), l) ensures l in done {
      assert True(m, l);
    }
    CoveredOpen(c, ws, UpTo(m, b), done);
  }

  // Backtracking keeps the guarantee without touching a watch.
  lemma BacktrackKeeps(c: Constr, ws: seq<bool>, m: Model, done: set<Lit>, b: nat, done': set<Lit>)
    requires CoveredUpTo(c, ws, m, done) && forall l :: l in done && True(UpTo(m, b), l) <==> l in done'
    ensures CoveredUpTo(c, ws, UpTo(m, b), done')
  {
    forall b': nat ensures Covered(c, ws, UpTo(UpTo(m, b), b'), done') {
      var k := if b < b' then b else b';
      assert UpTo(UpTo(m, b), b') == UpTo(m, k);
      assert Covered(c, ws, UpTo(m, k), done);
      assert Clear(c.terms, ws, UpTo(m, k), done) ==> Clear(c.terms, ws, UpTo(m, k), done');
    }
  }

  // Binding more literals and propagating none of them keeps the guarantee.
  lemma ExtendKeeps(c: Constr, ws: seq<bool>, m: Model, m': Model, done: set<Lit>)
    requires CoveredUpTo(c, ws, m, done) && Extends(m, m') && NonNegative(c.terms)
    requires forall l :: l in done ==> True(m, l)
    ensures CoveredUpTo(c, ws, m', done)
  {
    forall b: nat ensures Covered(c, ws, UpTo(m', b), done) {
      assert Covered(c, ws, UpTo(m, b), done);
      var u, u' := UpTo(m, b), UpTo(m', b);
      assert forall l: Lit :: True(u, l) ==> True(u', l);
      SumMono(c.terms, TrueNow(u), TrueNow(u'));
      forall k | 0 <= k < |ws| && ws[k] && False(u', c.terms[k].l) && c.terms[k].l.Neg() in done
        ensures False(u, c.terms[k].l)
      {
        assert True(m, c.terms[k].l.Neg());
      }
    }
  }

  // What a visit must establish at the current level is enough for the levels below: lit is free there.
  lemma VisitKeeps(c: Constr, ws: seq<bool>, ws': seq<bool>, m: Model, done: set<Lit>, lit: Lit, lvl: nat)
    requires CoveredUpTo(c, ws, m, done) && True(m, lit) && Level(m, lit.v) == lvl
    requires forall v :: 0 <= v < |m| ==> Level(m, v) <= lvl
    requires (Sum(c.terms, TrueNow(m)) >= c.card && ws' == ws)
             || (|ws'| == |c.terms| && WatchedSum(c.terms, ws') > c.card
                 && forall k :: 0 <= k < |c.terms| && ws'[k] ==> !False(m, c.terms[k].l))
    ensures CoveredUpTo(c, ws', m, done + {lit})
  {
    forall b: nat ensures Covered(c, ws', UpTo(m, b), done + {lit}) {
      assert Covered(c, ws, UpTo(m, b), done);
      if b >= lvl {
        assert UpTo(m, b) == m;
      } else if ws' == ws {
        assert UpTo(m, b)[lit.v] == 0;
        assert Clear(c.terms, ws, UpTo(m, b), done) ==> Clear(c.terms, ws, UpTo(m, b), done + {lit});
      }
    }
  }

  // ----- the watch lists -----

  predicate NoRepeat(s: seq<nat>) { forall i, j :: 0 <= i < j < |s| ==> s[i] != s[j] }

  ghost predicate Watching(cs: seq<Constr>, watched: seq<seq<bool>>, i: nat, l: Lit)
  {
    i < |cs| && i < |watched|
    && exists k :: 0 <= k < |cs[i].terms| && k < |watched[i]| && watched[i][k] && cs[i].terms[k].l == l.Neg()
  }

  ghost predicate ListsOk(cs: seq<Constr>, watched: seq<seq<bool>>, wl: Lists, nbVars: nat)
  {
    |watched| == |cs| && (forall i :: 0 <= i < |cs| ==> |watched[i]| == |cs[i].terms| && ConstrOk(cs[i], nbVars))
    && forall l: Lit :: l.v < nbVars ==> l in wl && NoRepeat(wl[l]) && forall i :: i in wl[l] <==> Watching(cs, watched, i, l)
  }

  // removeFrom: the last entry takes the place of the first occurrence of c.
  function RemoveFrom(lst: seq<nat>, c: nat): (r: seq<nat>)
    requires c in lst
    ensures NoRepeat(lst) ==> NoRepeat(r) && forall x :: x in r <==> x in lst && x != c
  {
    var i := IndexOf(lst, c);
    var last := |lst| - 1;
    var r := lst[i := lst[last]][..last];
    assert forall k :: 0 <= k < last ==> r[k] == if k == i then lst[last] else lst[k];
    assert forall k :: 0 <= k < |lst| && k != i && k != last ==> r[k] == lst[k];
    assert i < last ==> r[i] == lst[last];
    r
  }

  function IndexOf(lst: seq<nat>, c: nat): (i: nat)
    requires c in lst
    ensures i < |lst| && lst[i] == c
  {
    if lst[0] == c then 0 else 1 + IndexOf(lst[1..], c)
  }

  lemma WatchOn(cs: seq<Constr>, watched: seq<seq<bool>>, wl: Lists, nbVars: nat, i: nat, k: nat)
    requires ListsOk(cs, watched, wl, nbVars) && i < |cs| && k < |cs[i].terms| && !watched[i][k]
    ensures var l := cs[i].terms[k].l.Neg();
            && l in wl && ListsOk(cs, watched[i := watched[i][k := true]], wl[l := wl[l] + [i]], nbVars)
  {
    var l, watched' := cs[i].terms[k].l.Neg(), watched[i := watched[i][k := true]];
    OnlyOne(cs, watched, nbVars, i, k);
    assert cs[i].terms[k] in cs[i].terms;
    var wl' := wl[l := wl[l] + [i]];
    forall l': Lit, j: nat | l'.v < nbVars
      ensures Watching(cs, watched', j, l') <==> Watching(cs, watched, j, l') || (j == i && l' == l)
    {
    }
  }

  lemma OnlyOne(cs: seq<Constr>, watched: seq<seq<bool>>, nbVars: nat, i: nat, k: nat)
    requires i < |cs| == |watched| && |watched[i]| == |cs[i].terms| && ConstrOk(cs[i], nbVars) && k < |cs[i].terms|
    ensures Watching(cs, watched, i, cs[i].terms[k].l.Neg()) <==> watched[i][k]
  {
  }

}
