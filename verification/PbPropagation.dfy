// Propagation of pseudo-boolean constraints: watchPB, slackSum, simplifyPseudoBool, updateWatchPB and the PB
// part of propagate (solver/watcher.go).
module PbPropagation {
  import opened Logic
  import opened Bindings
  import opened Linear
  import opened Resolution
  import opened PbClause
  import opened PbWatch

  // Every literal with a reason was forced by it when it was bound.
  ghost predicate Reasoned(cs: seq<Constr>, m: Model, t: seq<Lit>, reason: seq<Option<nat>>)
  {
    |reason| == |m| && forall i :: 0 <= i < |t| && t[i].v < |m| && reason[t[i].v].Some? ==>
      reason[t[i].v].value < |cs| && Propagated(Context(t, m, []), i, cs[reason[t[i].v].value])
  }

  // c can force l: the slack without it would be negative.
  ghost predicate Forceable(c: Constr, m: Model, l: Lit)
  {
    l.v < |m| && m[l.v] == 0
    && exists k :: 0 <= k < |c.terms| && c.terms[k].l == l && OpenSum(c.terms, m) - c.card < c.terms[k].w
  }

  ghost predicate Stacked(m: Model, t: seq<Lit>, lvl: nat) { TrailOk(m, t) && DistinctVars(t) && LevelsUpTo(m, t, lvl) && lvl >= 1 }

  lemma PushStacked(m: Model, t: seq<Lit>, l: Lit, lvl: nat)
    requires Stacked(m, t, lvl) && l.v < |m| && m[l.v] == 0
    ensures Stacked(m[l.v := SignedLevel(l, lvl)], t + [l], lvl) && TrailOk(m, t) && Extends(m, m[l.v := SignedLevel(l, lvl)])
  {
    PushTrail(m, t, l, lvl);
    forall k | 0 <= k < |t| ensures t[k].v != l.v {
      assert True(m, t[k]);
    }
  }

  lemma PushGrew(cs: seq<Constr>, m: Model, t: seq<Lit>, reason: seq<Option<nat>>, l: Lit, lvl: nat, i: nat)
    requires Reasoned(cs, m, t, reason) && l.v < |m| && m[l.v] == 0 && lvl >= 1
    ensures |reason| == |m| && Grew(m, t, reason, m[l.v := SignedLevel(l, lvl)], t + [l], reason[l.v := Some(i)], lvl)
  {
  }

  lemma PushReasoned(cs: seq<Constr>, m: Model, t: seq<Lit>, reason: seq<Option<nat>>, l: Lit, lvl: nat, i: nat, nbVars: nat)
    requires Reasoned(cs, m, t, reason) && Stacked(m, t, lvl) && i < |cs| && ConstrOk(cs[i], nbVars) && |m| == nbVars
    requires Forceable(cs[i], m, l)
    ensures Reasoned(cs, m[l.v := SignedLevel(l, lvl)], t + [l], reason[l.v := Some(i)])
  {
    var m', t', reason' := m[l.v := SignedLevel(l, lvl)], t + [l], reason[l.v := Some(i)];
    forall j | 0 <= j < |t'| && reason'[t'[j].v].Some?
      ensures reason'[t'[j].v].value < |cs| && Propagated(Context(t', m', []), j, cs[reason'[t'[j].v].value])
    {
      RestrictedPush(m, t, l, SignedLevel(l, lvl), j);
      if j < |t| {
        assert t'[j] == t[j] && True(m, t[j]);
        assert Propagated(Context(t, m, []), j, cs[reason[t[j].v].value]);
      }
    }
  }

  // Making a literal of c true leaves what c can reach.
  lemma PushOpen(c: Constr, n: nat, m: Model, l: Lit, w: int)
    requires ConstrOk(c, n) && l.v < |m| && m[l.v] == 0 && (w > 0) == l.pos && w != 0 && exists t :: t in c.terms && t.l == l
    ensures OpenSum(c.terms, m[l.v := w]) == OpenSum(c.terms, m)
  {
    var k :| 0 <= k < |c.terms| && c.terms[k].l == l;
    forall t | t in c.terms ensures NotFalse(m[l.v := w])(t) == NotFalse(m)(t) {
      var j :| 0 <= j < |c.terms| && c.terms[j] == t;
      if j != k {
        assert c.terms[j].l.v != c.terms[k].l.v;
      }
    }
    SumAgree(c.terms, NotFalse(m[l.v := w]), NotFalse(m));
  }

  // The trail t has grown to t' by literals forced at lvl; what was bound keeps its level and its reason.
  ghost predicate Grew(m: Model, t: seq<Lit>, reason: seq<Option<nat>>, m': Model, t': seq<Lit>, reason': seq<Option<nat>>, lvl: nat)
  {
    t <= t' && Extends(m, m') && |reason| == |reason'| == |m|
    && (forall v :: 0 <= v < |m| && (m[v] != 0 || m'[v] == 0) ==> reason'[v] == reason[v])
    && forall i :: |t| <= i < |t'| ==> t'[i].v < |m'| && m[t'[i].v] == 0 && Level(m', t'[i].v) == lvl && reason'[t'[i].v].Some?
  }

  lemma GrewSame(m: Model, t: seq<Lit>, reason: seq<Option<nat>>, lvl: nat)
    requires |reason| == |m|
    ensures Grew(m, t, reason, m, t, reason, lvl)
  {
  }

  lemma GrewMore(m0: Model, t0: seq<Lit>, r0: seq<Option<nat>>, m1: Model, t1: seq<Lit>, r1: seq<Option<nat>>,
                 m2: Model, t2: seq<Lit>, r2: seq<Option<nat>>, lvl: nat)
    requires Grew(m0, t0, r0, m1, t1, r1, lvl) && Grew(m1, t1, r1, m2, t2, r2, lvl) && Stacked(m1, t1, lvl)
    ensures Grew(m0, t0, r0, m2, t2, r2, lvl)
  {
    forall i | |t0| <= i < |t2|
      ensures t2[i].v < |m2| && m0[t2[i].v] == 0 && Level(m2, t2[i].v) == lvl && r2[t2[i].v].Some?
    {
      if i < |t1| {
        assert t2[i] == t1[i] && True(m1, t1[i]);
      } else {
        assert m1[t2[i].v] == 0;
      }
    }
  }

  // The literals of t that were at level lvl from position k on still are, and the new ones are too.
  lemma GrewLevels(m: Model, t: seq<Lit>, r: seq<Option<nat>>, m': Model, t': seq<Lit>, r': seq<Option<nat>>, lvl: nat, k: nat)
    requires Grew(m, t, r, m', t', r', lvl) && TrailOk(m, t) && k <= |t|
    requires forall i :: k <= i < |t| ==> Level(m, t[i].v) == lvl
    ensures forall i :: k <= i < |t'| ==> Level(m', t'[i].v) == lvl
  {
    forall i | 0 <= i < |t| ensures Level(m', t'[i].v) == Level(m, t[i].v) {
      assert t'[i] == t[i] && True(m, t[i]);
    }
  }

  ghost predicate AllCovered(cs: seq<Constr>, watched: seq<seq<bool>>, m: Model, done: set<Lit>)
  {
    |watched| == |cs| && forall i :: 0 <= i < |cs| ==> CoveredUpTo(cs[i], watched[i], m, done)
  }

  // A constraint as the simplification leaves it. It need not be sorted: removeLit moves the last term forward.
  ghost predicate Loadable(c: Constr, nbVars: nat)
  {
    ConstrOk(c, nbVars) && c.card >= 1 && NothingForced(c) && c.terms != []
  }

  // No literal outweighs what the watched literals leave above the degree.
  ghost predicate AmplyWatched(c: Constr, ws: seq<bool>)
  {
    |ws| == |c.terms| && WatchedSum(c.terms, ws) >= c.card
    && forall k :: 0 <= k < |ws| && ws[k] ==> c.terms[k].w <= WatchedSum(c.terms, ws) - c.card
  }

  // The first weight, which watchPB goes by, is the largest.
  ghost predicate FirstLargest(c: Constr) { forall t :: t in c.terms ==> t.w <= c.terms[0].w }

  // Watched from the first literal on, false ones left out, just until the degree is exceeded.
  ghost predicate BarelyWatched(c: Constr, ws: seq<bool>, m: Model)
  {
    |ws| == |c.terms| && exists stop: nat :: StopsAt(c, ws, m, stop)
  }

  ghost predicate StopsAt(c: Constr, ws: seq<bool>, m: Model, stop: nat)
    requires |ws| == |c.terms|
  {
    stop <= |c.terms| && (forall j :: 0 <= j < |c.terms| ==> (ws[j] <==> j < stop && !False(m, c.terms[j].l)))
    && OpenSum(c.terms[..stop], m) > c.card && (stop > 0 ==> OpenSum(c.terms[..stop - 1], m) <= c.card)
  }

  // What watchPB sets: the literals from the first on, until the degree plus the first weight is reached.
  ghost predicate WatchedUpTo(c: Constr, ws: seq<bool>) { exists k: nat :: GoalAt(c, ws, k) }

  ghost predicate GoalAt(c: Constr, ws: seq<bool>, k: nat)
  {
    |ws| == |c.terms| && k <= |ws| && c.terms != [] && (forall j :: 0 <= j < |ws| ==> (ws[j] <==> j < k))
    && (k < |ws| ==> WeightSum(c.terms[..k]) >= c.terms[0].w + c.card)
    && (k > 0 ==> WeightSum(c.terms[..k - 1]) < c.terms[0].w + c.card)
  }

  // That outweighs the degree, and amply so if the first weight is the largest.
  lemma GoalReached(c: Constr, ws: seq<bool>, k: nat, nbVars: nat)
    requires Loadable(c, nbVars) && GoalAt(c, ws, k)
    ensures WatchedSum(c.terms, ws) > c.card
    ensures FirstLargest(c) ==> AmplyWatched(c, ws)
  {
    WatchedPrefix(c.terms, ws, [], k);
    SumAgree(c.terms[..k], NotFalse([]), Weights());
    assert k == |ws| ==> c.terms[..k] == c.terms;
    assert forall j :: 0 <= j < |c.terms| ==> c.terms[j] in c.terms;
  }

  // ws is unchanged, or was chosen anew under bindings between m and m'.
  ghost predicate Rewatched(c: Constr, ws: seq<bool>, ws': seq<bool>, m: Model, m': Model)
  {
    ws' == ws || exists n: Model :: Extends(m, n) && Extends(n, m') && BarelyWatched(c, ws', n)
  }

  class Propagator {
    const nbVars: nat
    const constraints: seq<Constr>
    var watched: seq<seq<bool>>
    var wlistPb: Lists
    var model: Model
    var trail: seq<Lit>
    var reason: seq<Option<nat>>

    // Loads constraints over free variables, none of which forces a literal, beside literals bound at level 1.
    constructor (nbVars: nat, constraints: seq<Constr>, units: seq<Lit>)
      requires forall i :: 0 <= i < |constraints| ==> Loadable(constraints[i], nbVars)
      requires DistinctVars(units) && forall u :: u in units ==> u.v < nbVars
      requires forall c, t, u :: c in constraints && t in c.terms && u in units ==> t.l.v != u.v
      ensures this.nbVars == nbVars && this.constraints == constraints && trail == units
      ensures reason == seq(nbVars, _ => None)
      ensures Shape() && Bindings(1) && AllCovered(constraints, watched, model, Elems(trail))
      ensures forall i :: 0 <= i < |constraints| ==> WatchedUpTo(constraints[i], watched[i])
      ensures forall i :: 0 <= i < |constraints| && FirstLargest(constraints[i]) ==> AmplyWatched(constraints[i], watched[i])
    {
      this.nbVars, this.constraints := nbVars, constraints;
      model, trail, reason := seq(nbVars, _ => 0), [], seq(nbVars, _ => None);
      watched, wlistPb := NothingWatched(constraints), NoLists(nbVars);
      new;
      hide ListsOk, NoLists, NothingWatched, DistinctVars, Loadable, AllCovered, Elems, AmplyWatched, WatchedUpTo, FirstLargest,
        Stacked, Reasoned;
      StartLists(constraints, nbVars);
      StartBindings(constraints, nbVars);
      BindUnits(units);
      WatchAll(units);
    }

    method BindUnits(units: seq<Lit>)
      requires Shape() && Bindings(1) && trail == [] && DistinctVars(units) && forall u :: u in units ==> u.v < nbVars
      requires reason == seq(nbVars, _ => None)
      modifies this`model, this`trail
      ensures Shape() && Bindings(1) && trail == units
    {
      hide ListsOk, Stacked, Reasoned, DistinctVars;
      for k := 0 to |units|
        invariant Shape() && Bindings(1) && trail == units[..k]
      {
        UnitFree(model, trail, units, k, constraints, reason);
        model := model[units[k].v := SignedLevel(units[k], 1)];
        trail := trail + [units[k]];
      }
    }

    method WatchAll(ghost units: seq<Lit>)
      requires Shape() && trail == units && TrailOk(model, trail)
      requires forall i :: 0 <= i < |constraints| ==> Loadable(constraints[i], nbVars)
      requires forall c, t, u :: c in constraints && t in c.terms && u in units ==> t.l.v != u.v
      requires forall j :: 0 <= j < |constraints| ==> watched[j] == seq(|constraints[j].terms|, _ => false)
      modifies this`watched, this`wlistPb
      ensures Shape() && AllCovered(constraints, watched, model, Elems(trail))
      ensures forall i :: 0 <= i < |constraints| ==> WatchedUpTo(constraints[i], watched[i])
      ensures forall i :: 0 <= i < |constraints| && FirstLargest(constraints[i]) ==> AmplyWatched(constraints[i], watched[i])
    {
      hide ListsOk, Loadable, TrailOk, CoveredUpTo, WatchedAnew, Elems, AmplyWatched, WatchedUpTo, FirstLargest;
      for i := 0 to |constraints|
        invariant Shape() && |watched| == |constraints|
        invariant forall j :: 0 <= j < i ==> WatchedUpTo(constraints[j], watched[j])
        invariant forall j :: 0 <= j < i && FirstLargest(constraints[j]) ==> AmplyWatched(constraints[j], watched[j])
        invariant forall j :: 0 <= j < i ==> CoveredUpTo(constraints[j], watched[j], model, Elems(trail))
        invariant forall j :: i <= j < |constraints| ==> watched[j] == seq(|constraints[j].terms|, _ => false)
      {
        WatchPB(i);
        AllFree(model, trail, constraints, i, watched[i]);
        AnewCovers(constraints[i], watched[i], model, Elems(trail));
      }
    }

    // watchPB: watches from the first literal until the degree plus the largest weight is reached.
    method WatchPB(i: nat)
      requires Shape() && i < |constraints| && Loadable(constraints[i], nbVars)
      requires watched[i] == seq(|constraints[i].terms|, _ => false)
      modifies this`watched, this`wlistPb
      ensures Shape() && |watched| == |constraints| && |watched[i]| == |constraints[i].terms|
      ensures WatchedSum(constraints[i].terms, watched[i]) > constraints[i].card
      ensures FirstLargest(constraints[i]) ==> AmplyWatched(constraints[i], watched[i])
      ensures WatchedUpTo(constraints[i], watched[i])
      ensures forall j :: 0 <= j < |constraints| && j != i ==> watched[j] == old(watched)[j]
    {
      var c := constraints[i];
      assert c.terms != [];
      var goal := c.terms[0].w + c.card;
      var sum, k := 0, 0;
      hide ListsOk, Loadable, WatchedSum, AmplyWatched, FirstLargest, Sum, ConstrOk;
      NoTerms(c.terms, Weights());
      FirstTerm(c, nbVars);
      while sum < goal && k < |c.terms|
        invariant Shape() && k <= |c.terms| && sum == WeightSum(c.terms[..k])
        invariant k > 0 ==> WeightSum(c.terms[..k - 1]) < goal
        invariant forall j :: 0 <= j < |c.terms| ==> (watched[i][j] <==> j < k)
        invariant watched == old(watched)[i := watched[i]]
      {
        Watch(i, k);
        Taken(c.terms, k, Weights());
        sum := sum + c.terms[k].w;
        k := k + 1;
      }
      assert GoalAt(c, watched[i], k);
      GoalReached(c, watched[i], k, nbVars);
    }

    ghost predicate Shape()
      reads this
    {
      |model| == nbVars && |watched| == |constraints| && ListsOk(constraints, watched, wlistPb, nbVars)
      && forall i :: 0 <= i < |constraints| ==>
           ConstrOk(constraints[i], nbVars) && constraints[i].card >= 1 && |watched[i]| == |constraints[i].terms|
    }

    // The trail at level lvl, every forced literal with its reason.
    ghost predicate Bindings(lvl: nat)
      reads this
    {
      Stacked(model, trail, lvl) && Reasoned(constraints, model, trail, reason)
    }

    method Watch(i: nat, k: nat)
      requires Shape() && i < |constraints| && k < |constraints[i].terms| && !watched[i][k]
      modifies this`watched, this`wlistPb
      ensures Shape() && watched == old(watched)[i := old(watched)[i][k := true]]
    {
      WatchOn(constraints, watched, wlistPb, nbVars, i, k);
      var l := constraints[i].terms[k].l.Neg();
      wlistPb := wlistPb[l := wlistPb[l] + [i]];
      watched := watched[i := watched[i][k := true]];
    }

    method Unwatch(i: nat, k: nat)
      requires Shape() && i < |constraints| && k < |constraints[i].terms| && watched[i][k]
      modifies this`watched, this`wlistPb
      ensures Shape() && watched == old(watched)[i := old(watched)[i][k := false]]
    {
      var l := constraints[i].terms[k].l.Neg();
      wlistPb := wlistPb[l := RemoveFrom(wlistPb[l], i)];
      watched := watched[i := watched[i][k := false]];
    }

    // slackSum: whether the true weight reaches the degree, and if not what can still be lost.
    method SlackSum(c: Constr) returns (slack: int, sat: bool)
      requires ConstrOk(c, nbVars) && |model| == nbVars && c.card >= 1
      ensures sat <==> Sum(c.terms, TrueNow(model)) >= c.card
      ensures !sat ==> slack == OpenSum(c.terms, model) - c.card
    {
      slack := -c.card;
      var sum := 0;
      for i := 0 to |c.terms|
        invariant slack == OpenSum(c.terms[..i], model) - c.card
        invariant sum == Sum(c.terms[..i], TrueNow(model)) < c.card
      {
        var t := c.terms[i];
        assert t in c.terms;
        Taken(c.terms, i, NotFalse(model));
        Taken(c.terms, i, TrueNow(model));
        if !False(model, t.l) {
          slack := slack + t.w;
          if True(model, t.l) {
            sum := sum + t.w;
            if sum >= c.card {
              MoreIsMore(c.terms, i + 1, model);
              return slack, true;
            }
          }
        }
      }
      assert c.terms[..|c.terms|] == c.terms;
      sat := false;
    }

    method PropagateUnit(i: nat, lvl: nat, unit: Lit)
      requires |model| == nbVars && Bindings(lvl) && i < |constraints| && ConstrOk(constraints[i], nbVars)
      requires Forceable(constraints[i], model, unit)
      modifies this`model, this`trail, this`reason
      ensures |model| == nbVars && Bindings(lvl) && trail == old(trail) + [unit] && Extends(old(model), model)
      ensures model == old(model)[unit.v := SignedLevel(unit, lvl)]
      ensures Grew(old(model), old(trail), old(reason), model, trail, reason, lvl)
      ensures OpenSum(constraints[i].terms, model) == OpenSum(constraints[i].terms, old(model))
    {
      hide Stacked, Reasoned, Grew, ConstrOk, Extends;
      PushStacked(model, trail, unit, lvl);
      PushGrew(constraints, model, trail, reason, unit, lvl, i);
      PushReasoned(constraints, model, trail, reason, unit, lvl, i, nbVars);
      PushOpen(constraints[i], nbVars, model, unit, SignedLevel(unit, lvl));
      reason := reason[unit.v := Some(i)];
      model := model[unit.v := SignedLevel(unit, lvl)];
      trail := trail + [unit];
    }

    // propagateAll: with no slack left every free literal is forced, and the constraint holds.
    method PropagateAll(i: nat, lvl: nat)
      requires Shape() && Bindings(lvl) && i < |constraints|
      requires OpenSum(constraints[i].terms, model) == constraints[i].card
      modifies this`model, this`trail, this`reason
      ensures Shape() && Bindings(lvl) && Grew(old(model), old(trail), old(reason), model, trail, reason, lvl)
      ensures Sum(constraints[i].terms, TrueNow(model)) >= constraints[i].card
    {
      var c := constraints[i];
      for k := 0 to |c.terms|
        invariant |model| == nbVars && Bindings(lvl) && Grew(old(model), old(trail), old(reason), model, trail, reason, lvl)
        invariant OpenSum(c.terms, model) == c.card
        invariant forall j :: 0 <= j < k ==> model[c.terms[j].l.v] != 0
      {
        assert c.terms[k] in c.terms;
        if model[c.terms[k].l.v] == 0 {
          ghost var m, t, r := model, trail, reason;
          PropagateUnit(i, lvl, c.terms[k].l);
          GrewMore(old(model), old(trail), old(reason), m, t, r, model, trail, reason, lvl);
        }
      }
      forall t | t in c.terms ensures TrueNow(model)(t) == NotFalse(model)(t) {
        var j :| 0 <= j < |c.terms| && c.terms[j] == t;
      }
      SumAgree(c.terms, TrueNow(model), NotFalse(model));
    }

    // Literals bound since position k are at level lvl.
    ghost predicate LevelsFrom(lvl: nat, k: nat)
      reads this
    {
      forall i :: k <= i < |trail| ==> Level(model, trail[i].v) == lvl
    }

    // updateWatchPB: watches literals that are not false, from the first, until they weigh more than the degree.
    method UpdateWatchPB(i: nat)
      requires Shape() && i < |constraints| && OpenSum(constraints[i].terms, model) > constraints[i].card
      modifies this`watched, this`wlistPb
      ensures Shape() && WatchedAnew(constraints[i], watched[i], model) && BarelyWatched(constraints[i], watched[i], model)
      ensures forall j :: 0 <= j < |constraints| && j != i ==> watched[j] == old(watched)[j]
    {
      hide ListsOk, Sum, WatchedSum, False;
      var c := constraints[i];
      NoTerms(c.terms, NotFalse(model));
      var weightWatched, k := 0, 0;
      while weightWatched <= c.card && k < |c.terms|
        invariant Shape() && k <= |c.terms| && weightWatched == OpenSum(c.terms[..k], model)
        invariant k > 0 ==> OpenSum(c.terms[..k - 1], model) <= c.card
        invariant forall j :: 0 <= j < k ==> (watched[i][j] <==> !False(model, c.terms[j].l))
        invariant forall j :: 0 <= j < |constraints| && j != i ==> watched[j] == old(watched)[j]
      {
        Taken(c.terms, k, NotFalse(model));
        if False(model, c.terms[k].l) {
          if watched[i][k] {
            Unwatch(i, k);
          }
        } else {
          weightWatched := weightWatched + c.terms[k].w;
          if !watched[i][k] {
            Watch(i, k);
          }
        }
        k := k + 1;
      }
      assert k == |c.terms| ==> c.terms[..k] == c.terms;
      var stop := k;
      while k < |c.terms|
        invariant Shape() && stop <= k <= |c.terms|
        invariant forall j :: 0 <= j < k ==> (watched[i][j] <==> j < stop && !False(model, c.terms[j].l))
        invariant forall j :: 0 <= j < |constraints| && j != i ==> watched[j] == old(watched)[j]
      {
        if watched[i][k] {
          Unwatch(i, k);
        }
        k := k + 1;
      }
      WatchedPrefix(c.terms, watched[i], model, stop);
      assert StopsAt(c, watched[i], model, stop);
    }

    // simplifyPseudoBool: a visit of a constraint one of whose watched literals became false.
    method SimplifyPseudoBool(i: nat, lvl: nat) returns (ok: bool)
      requires Shape() && Bindings(lvl) && i < |constraints|
      modifies this`watched, this`wlistPb, this`model, this`trail, this`reason
      ensures Shape() && Bindings(lvl) && Grew(old(model), old(trail), old(reason), model, trail, reason, lvl)
      ensures !ok ==> OpenSum(constraints[i].terms, model) < constraints[i].card
      ensures ok ==> (Sum(constraints[i].terms, TrueNow(model)) >= constraints[i].card && watched == old(watched))
                     || WatchedAnew(constraints[i], watched[i], model)
      ensures ok ==> forall l :: !Forceable(constraints[i], model, l)
      ensures watched[i] == old(watched)[i] || BarelyWatched(constraints[i], watched[i], model)
      ensures forall j :: 0 <= j < |constraints| && j != i ==> watched[j] == old(watched)[j]
    {
      hide ListsOk, Reasoned, TrailOk, WatchedAnew, ConstrOk, Sum, BarelyWatched, Grew;
      var c := constraints[i];
      ConstrVars(c, nbVars);
      ReasonCount(constraints, model, trail, reason);
      GrewSame(model, trail, reason, lvl);
      var foundUnit := true;
      while foundUnit
        invariant Shape() && Bindings(lvl) && Grew(old(model), old(trail), old(reason), model, trail, reason, lvl)
        invariant watched == old(watched)
        invariant !foundUnit ==> OpenSum(c.terms, model) > c.card && NoneAbove(c, model, OpenSum(c.terms, model) - c.card)
        decreases nbVars - |trail|, foundUnit
      {
        var slack, sat := SlackSum(c);
        if sat {
          SatisfiedForcesNone(c, nbVars, model);
          return true;
        }
        if slack < 0 {
          return false;
        }
        if slack == 0 {
          ghost var m, t, r := model, trail, reason;
          PropagateAll(i, lvl);
          GrewMore(old(model), old(trail), old(reason), m, t, r, model, trail, reason, lvl);
          SatisfiedForcesNone(c, nbVars, model);
          return true;
        }
        foundUnit := false;
        ghost var before := |trail|;
        for k := 0 to |c.terms|
          invariant Shape() && Bindings(lvl) && Grew(old(model), old(trail), old(reason), model, trail, reason, lvl)
          invariant watched == old(watched)
          invariant OpenSum(c.terms, model) == slack + c.card && before <= |trail|
          invariant foundUnit ==> before < |trail|
          invariant !foundUnit ==> forall j :: 0 <= j < k && model[c.terms[j].l.v] == 0 ==> c.terms[j].w <= slack
        {
          if model[c.terms[k].l.v] == 0 && c.terms[k].w > slack {
            ghost var m, t, r := model, trail, reason;
            PropagateUnit(i, lvl, c.terms[k].l);
            GrewMore(old(model), old(trail), old(reason), m, t, r, model, trail, reason, lvl);
            foundUnit := true;
          }
        }
        TrailLength(model, trail);
      }
      UpdateWatchPB(i);
      ok := true;
    }

    // The PB part of propagate: visits the constraints watching the negation of each literal of the trail
    // from the ptrth on. Without conflict no constraint is left falsified, now or after any backtracking, and
    // an amply watched one forces nothing more. A literal that no constraint watches changes nothing.
    method Propagate(from: nat, lvl: nat) returns (confl: Option<nat>)
      requires Shape() && Bindings(lvl) && from <= |trail| && LevelsFrom(lvl, from)
      requires AllCovered(constraints, watched, model, Elems(trail[..from]))
      modifies this`watched, this`wlistPb, this`model, this`trail, this`reason
      ensures Shape() && Bindings(lvl) && LevelsFrom(lvl, from)
      ensures Grew(old(model), old(trail), old(reason), model, trail, reason, lvl)
      ensures confl.Some? ==> confl.value < |constraints|
                              && OpenSum(constraints[confl.value].terms, model) < constraints[confl.value].card
      ensures confl == None ==> AllCovered(constraints, watched, model, Elems(trail))
      ensures confl == None ==> forall i, b: nat :: 0 <= i < |constraints| ==>
                OpenSum(constraints[i].terms, UpTo(model, b)) >= constraints[i].card
      ensures confl == None ==> forall i, l :: 0 <= i < |constraints| && AmplyWatched(constraints[i], watched[i]) ==>
                !Forceable(constraints[i], model, l)
      ensures AllRewatched(constraints, old(watched), watched, old(model), model)
      ensures Unwatched(constraints, old(watched), old(trail)[from..]) ==>
                confl == None && trail == old(trail) && model == old(model) && watched == old(watched)
    {
      hide ListsOk, AllCovered, Reasoned, Grew, AllRewatched, Extends, TrailOk, ConstrOk, Unwatched, AmplyWatched;
      var ptr := from;
      ReasonCount(constraints, model, trail, reason);
      GrewSame(model, trail, reason, lvl);
      RewatchedNone(constraints, watched, model);
      while ptr < |trail|
        invariant Shape() && Bindings(lvl) && from <= ptr <= |trail| && LevelsFrom(lvl, from)
        invariant Grew(old(model), old(trail), old(reason), model, trail, reason, lvl)
        invariant AllRewatched(constraints, old(watched), watched, old(model), model)
        invariant AllCovered(constraints, watched, model, Elems(trail[..ptr]))
        invariant Unwatched(constraints, old(watched), old(trail)[from..]) ==>
                    trail == old(trail) && model == old(model) && watched == old(watched)
        decreases nbVars - ptr
      {
        TrailLength(model, trail);
        ghost var m, t, r, w := model, trail, reason, watched;
        confl := VisitAll(ptr, lvl);
        GrewMore(old(model), old(trail), old(reason), m, t, r, model, trail, reason, lvl);
        GrewLevels(m, t, r, model, trail, reason, lvl, from);
        GrewExtends(old(model), old(trail), old(reason), m, t, r, lvl);
        GrewExtends(m, t, r, model, trail, reason, lvl);
        RewatchedMore(constraints, old(watched), w, watched, old(model), m, model);
        if ptr < |old(trail)| {
          UnwatchedAt(constraints, old(watched), old(trail), from, ptr);
        }
        if confl.Some? {
          return;
        }
        ptr := ptr + 1;
      }
      assert trail[..ptr] == trail;
      NothingMissed(constraints, watched, model, trail, lvl, nbVars);
      confl := None;
    }

    // Visits every constraint on the list of the literal at ptr. The list is shortened meanwhile, but only at
    // places already visited, so the visit follows the list as it was.
    method VisitAll(ptr: nat, lvl: nat) returns (confl: Option<nat>)
      requires Shape() && Bindings(lvl) && ptr < |trail| && LevelsFrom(lvl, ptr)
      requires AllCovered(constraints, watched, model, Elems(trail[..ptr]))
      modifies this`watched, this`wlistPb, this`model, this`trail, this`reason
      ensures Shape() && Bindings(lvl) && Grew(old(model), old(trail), old(reason), model, trail, reason, lvl)
      ensures confl.Some? ==> confl.value < |constraints|
                              && OpenSum(constraints[confl.value].terms, model) < constraints[confl.value].card
      ensures confl == None ==> AllCovered(constraints, watched, model, Elems(trail[..ptr + 1]))
      ensures AllRewatched(constraints, old(watched), watched, old(model), model)
      ensures Unwatched(constraints, old(watched), [old(trail)[ptr]]) ==>
                confl == None && trail == old(trail) && model == old(model) && watched == old(watched)
    {
      hide ListsOk, Reasoned, WatchedAnew, PartlyVisited, AllCovered, CoveredUpTo, ConstrOk, Sum, Elems, TrailOk, Level, Stacked,
        Extends, Grew, BarelyWatched, AllRewatched, Unwatched, Forceable;
      var lit := trail[ptr];
      ghost var done, t0, w0 := Elems(trail[..ptr]), trail, watched;
      VisitStart(constraints, watched, wlistPb, nbVars, model, trail, reason, ptr, lvl);
      RewatchedNone(constraints, watched, model);
      var cs := wlistPb[lit];
      for n := 0 to |cs|
        invariant Shape() && Bindings(lvl) && Grew(old(model), old(trail), old(reason), model, trail, reason, lvl)
        invariant AllRewatched(constraints, old(watched), watched, old(model), model)
        invariant PartlyVisited(constraints, watched, model, done, lit, cs[n..])
        invariant n == 0 ==> trail == old(trail) && model == old(model) && watched == old(watched)
      {
        var i := cs[n];
        ghost var m1, t1, r1, w1 := model, trail, reason, watched;
        Listed(constraints, watched, model, done, lit, cs[n..]);
        var ok := SimplifyPseudoBool(i, lvl);
        GrewMore(old(model), old(trail), old(reason), m1, t1, r1, model, trail, reason, lvl);
        RewatchedOne(constraints, w1, watched, m1, t1, r1, model, trail, reason, lvl, i);
        GrewExtends(old(model), t0, old(reason), m1, t1, r1, lvl);
        GrewExtends(m1, t1, r1, model, trail, reason, lvl);
        RewatchedMore(constraints, old(watched), w1, watched, old(model), m1, model);
        if !ok {
          return Some(i);
        }
        VisitNext(constraints, w1, watched, old(model), t0, old(reason), m1, t1, r1, model, trail, reason, ptr, lvl, cs[n..], nbVars);
        assert cs[n..][1..] == cs[n + 1..];
      }
      assert cs[|cs|..] == [];
      VisitEnd(constraints, watched, old(model), t0, old(reason), model, trail, reason, ptr, lvl);
      confl := None;
    }

    // unifyLiteral: a new decision, or a literal forced from outside.
    method UnifyLiteral(lit: Lit, lvl: nat) returns (confl: Option<nat>)
      requires Shape() && Bindings(lvl) && lit.v < nbVars && model[lit.v] == 0 && reason[lit.v] == None
      requires AllCovered(constraints, watched, model, Elems(trail))
      modifies this`watched, this`wlistPb, this`model, this`trail, this`reason
      ensures Shape() && Bindings(lvl)
      ensures Grew(old(model)[lit.v := SignedLevel(lit, lvl)], old(trail) + [lit], old(reason), model, trail, reason, lvl)
      ensures confl.Some? ==> confl.value < |constraints|
                              && OpenSum(constraints[confl.value].terms, model) < constraints[confl.value].card
      ensures confl == None ==> AllCovered(constraints, watched, model, Elems(trail))
      ensures confl == None ==> forall i, l :: 0 <= i < |constraints| && AmplyWatched(constraints[i], watched[i]) ==>
                !Forceable(constraints[i], model, l)
      ensures AllRewatched(constraints, old(watched), watched, old(model)[lit.v := SignedLevel(lit, lvl)], model)
      ensures Unwatched(constraints, old(watched), [lit]) ==>
                confl == None && trail == old(trail) + [lit] && watched == old(watched)
    {
      hide ListsOk, ConstrOk, CoveredUpTo, Grew, AllRewatched, Unwatched, AmplyWatched, Forceable, Stacked, Reasoned, TrailOk,
        Extends, AllCovered;
      ghost var m0 := model;
      PushStacked(model, trail, lit, lvl);
      PushUnreasoned(constraints, model, trail, reason, lit, lvl);
      model := model[lit.v := SignedLevel(lit, lvl)];
      trail := trail + [lit];
      assert trail[..|trail| - 1] == old(trail) && trail[|trail| - 1..] == [lit];
      assert LevelsFrom(lvl, |trail| - 1);
      AllExtend(constraints, watched, m0, model, trail[..|trail| - 1], nbVars);
      confl := Propagate(|trail| - 1, lvl);
    }
  }

  // The watches of every constraint are as before, or were chosen anew meanwhile.
  ghost predicate AllRewatched(cs: seq<Constr>, w: seq<seq<bool>>, w': seq<seq<bool>>, m: Model, m': Model)
  {
    |w| == |w'| == |cs| && forall i :: 0 <= i < |cs| ==> Rewatched(cs[i], w[i], w'[i], m, m')
  }

  // No constraint watches the negation of a literal of t.
  ghost predicate Unwatched(cs: seq<Constr>, w: seq<seq<bool>>, t: seq<Lit>)
  {
    forall i, j :: 0 <= i < |cs| && 0 <= j < |t| ==> !Watching(cs, w, i, t[j])
  }

  lemma RewatchedNone(cs: seq<Constr>, w: seq<seq<bool>>, m: Model)
    requires |w| == |cs|
    ensures AllRewatched(cs, w, w, m, m)
  {
  }

  lemma UnwatchedAt(cs: seq<Constr>, w: seq<seq<bool>>, t: seq<Lit>, from: nat, ptr: nat)
    requires from <= ptr < |t|
    ensures Unwatched(cs, w, t[from..]) ==> Unwatched(cs, w, [t[ptr]])
  {
    assert t[from..][ptr - from] == t[ptr];
  }

  // Only constraint i was visited.
  lemma RewatchedOne(cs: seq<Constr>, w: seq<seq<bool>>, w': seq<seq<bool>>, m: Model, t: seq<Lit>, r: seq<Option<nat>>,
                     m': Model, t': seq<Lit>, r': seq<Option<nat>>, lvl: nat, i: nat)
    requires |w| == |w'| == |cs| && i < |cs| && Grew(m, t, r, m', t', r', lvl)
    requires forall j :: 0 <= j < |cs| && j != i ==> w'[j] == w[j]
    requires w'[i] == w[i] || BarelyWatched(cs[i], w'[i], m')
    ensures AllRewatched(cs, w, w', m, m')
  {
    hide BarelyWatched;
    assert Extends(m', m');
  }

  // The visits of the constraints on the list of the literal at ptr can begin.
  lemma VisitStart(cs: seq<Constr>, watched: seq<seq<bool>>, wl: Lists, nbVars: nat, m: Model, t: seq<Lit>,
                   reason: seq<Option<nat>>, ptr: nat, lvl: nat)
    requires ListsOk(cs, watched, wl, nbVars) && Stacked(m, t, lvl) && Reasoned(cs, m, t, reason) && ptr < |t| && |m| == nbVars
    requires Level(m, t[ptr].v) == lvl && AllCovered(cs, watched, m, Elems(t[..ptr]))
    ensures t[ptr] in wl && PartlyVisited(cs, watched, m, Elems(t[..ptr]), t[ptr], wl[t[ptr]])
    ensures Grew(m, t, reason, m, t, reason, lvl)
    ensures Unwatched(cs, watched, [t[ptr]]) ==> wl[t[ptr]] == []
  {
    hide PartlyVisited, Reasoned, AllCovered;
    TrailBound(m, t, ptr, lvl);
    NotListed(cs, watched, wl, nbVars, m, Elems(t[..ptr]), t[ptr]);
    ReasonCount(cs, m, t, reason);
    if wl[t[ptr]] != [] {
      assert wl[t[ptr]][0] in wl[t[ptr]];
      assert Watching(cs, watched, wl[t[ptr]][0], [t[ptr]][0]);
    }
  }

  // One more constraint has been visited.
  lemma VisitNext(cs: seq<Constr>, w0: seq<seq<bool>>, w1: seq<seq<bool>>, m: Model, t: seq<Lit>, r: seq<Option<nat>>,
                  m0: Model, t0: seq<Lit>, r0: seq<Option<nat>>, m1: Model, t1: seq<Lit>, r1: seq<Option<nat>>,
                  ptr: nat, lvl: nat, todo: seq<nat>, nbVars: nat)
    requires Stacked(m, t, lvl) && Stacked(m0, t0, lvl) && Stacked(m1, t1, lvl) && ptr < |t| && Level(m, t[ptr].v) == lvl
    requires Grew(m, t, r, m0, t0, r0, lvl) && Grew(m0, t0, r0, m1, t1, r1, lvl)
    requires todo != [] && todo[0] < |cs| && PartlyVisited(cs, w0, m0, Elems(t[..ptr]), t[ptr], todo)
    requires |w1| == |cs| && forall j :: 0 <= j < |cs| && j != todo[0] ==> w1[j] == w0[j]
    requires forall i :: 0 <= i < |cs| ==> ConstrOk(cs[i], nbVars)
    requires (Sum(cs[todo[0]].terms, TrueNow(m1)) >= cs[todo[0]].card && w1 == w0) || WatchedAnew(cs[todo[0]], w1[todo[0]], m1)
    ensures PartlyVisited(cs, w1, m1, Elems(t[..ptr]), t[ptr], todo[1..])
  {
    hide PartlyVisited, WatchedAnew, ConstrOk, Sum;
    assert t0[ptr] == t[ptr] == t1[ptr] && t0[..ptr] == t[..ptr];
    assert True(m, t[ptr]);
    TrailBound(m0, t0, ptr, lvl);
    Visited(cs, w0, w1, m0, m1, t1, Elems(t[..ptr]), ptr, lvl, todo, nbVars);
  }

  lemma VisitEnd(cs: seq<Constr>, watched: seq<seq<bool>>, m: Model, t: seq<Lit>, r: seq<Option<nat>>,
                 m': Model, t': seq<Lit>, r': seq<Option<nat>>, ptr: nat, lvl: nat)
    requires ptr < |t| && Grew(m, t, r, m', t', r', lvl) && PartlyVisited(cs, watched, m', Elems(t[..ptr]), t[ptr], [])
    ensures AllCovered(cs, watched, m', Elems(t'[..ptr + 1]))
  {
    assert t'[..ptr] == t[..ptr] && t'[ptr] == t[ptr];
    VisitsDone(cs, watched, m', t', ptr, []);
  }

  lemma ReasonCount(cs: seq<Constr>, m: Model, t: seq<Lit>, reason: seq<Option<nat>>)
    requires Reasoned(cs, m, t, reason)
    ensures |reason| == |m|
  {
  }

  lemma GrewExtends(m: Model, t: seq<Lit>, r: seq<Option<nat>>, m': Model, t': seq<Lit>, r': seq<Option<nat>>, lvl: nat)
    requires Grew(m, t, r, m', t', r', lvl)
    ensures Extends(m, m') && t <= t'
  {
  }

  lemma RewatchedMore(cs: seq<Constr>, w0: seq<seq<bool>>, w1: seq<seq<bool>>, w2: seq<seq<bool>>, m0: Model, m1: Model, m2: Model)
    requires AllRewatched(cs, w0, w1, m0, m1) && AllRewatched(cs, w1, w2, m1, m2)
    requires Extends(m0, m1) && Extends(m1, m2)
    ensures AllRewatched(cs, w0, w2, m0, m2)
  {
    hide BarelyWatched;
    forall i | 0 <= i < |cs| ensures Rewatched(cs[i], w0[i], w2[i], m0, m2) {
      assert Rewatched(cs[i], w0[i], w1[i], m0, m1) && Rewatched(cs[i], w1[i], w2[i], m1, m2);
      if w2[i] != w1[i] {
        var n: Model :| Extends(m1, n) && Extends(n, m2) && BarelyWatched(cs[i], w2[i], n);
        assert Extends(m0, n);
      } else if w1[i] != w0[i] {
        var n: Model :| Extends(m0, n) && Extends(n, m1) && BarelyWatched(cs[i], w1[i], n);
        assert Extends(n, m2);
      }
    }
  }

  // No free literal of c outweighs the slack.
  ghost predicate NoneAbove(c: Constr, m: Model, slack: int)
  {
    forall j :: 0 <= j < |c.terms| && c.terms[j].l.v < |m| && m[c.terms[j].l.v] == 0 ==> c.terms[j].w <= slack
  }

  // Free literals are open beside the true ones, or beside the watched ones.
  lemma OpenBeside(c: Constr, n: nat, m: Model, k: nat, f: Term -> int)
    requires ConstrOk(c, n) && k < |c.terms| && !False(m, c.terms[k].l) && f(c.terms[k]) == 0
    requires forall t :: t in c.terms ==> f(t) <= NotFalse(m)(t)
    ensures OpenSum(c.terms, m) >= Sum(c.terms, f) + c.terms[k].w
  {
    SumWithout(c.terms, k, NotFalse(m));
    SumWithout(c.terms, k, f);
    SumMono(c.terms[..k] + c.terms[k + 1..], f, NotFalse(m));
  }

  // With everything propagated, an amply watched constraint forces nothing that has not been bound.
  lemma AmplyForcesNone(c: Constr, n: nat, ws: seq<bool>, m: Model, done: set<Lit>, b: nat)
    requires ConstrOk(c, n) && CoveredUpTo(c, ws, m, done) && AmplyWatched(c, ws)
    requires (forall l: Lit :: True(m, l) ==> l in done) && forall v :: 0 <= v < |m| ==> Level(m, v) <= b
    ensures forall l :: !Forceable(c, m, l)
  {
    assert UpTo(m, b) == m && Covered(c, ws, UpTo(m, b), done);
    if Sum(c.terms, TrueNow(m)) >= c.card {
      SatisfiedForcesNone(c, n, m);
    } else {
      forall k | 0 <= k < |ws| && ws[k] ensures !False(m, c.terms[k].l) {
        assert False(m, c.terms[k].l) ==> True(m, c.terms[k].l.Neg());
      }
      WatchesForceNone(c, n, ws, m);
    }
  }

  // No watched literal of c is false.
  ghost predicate WatchesOpen(c: Constr, ws: seq<bool>, m: Model)
  {
    |ws| == |c.terms| && forall k :: 0 <= k < |ws| && ws[k] ==> !False(m, c.terms[k].l)
  }

  lemma WatchesForceNone(c: Constr, n: nat, ws: seq<bool>, m: Model)
    requires ConstrOk(c, n) && AmplyWatched(c, ws) && WatchesOpen(c, ws, m)
    ensures forall l :: !Forceable(c, m, l)
  {
    forall k | 0 <= k < |ws| && c.terms[k].l.v < |m| && m[c.terms[k].l.v] == 0
      ensures OpenSum(c.terms, m) - c.card >= c.terms[k].w
    {
      assert NonNegative(c.terms);
      if ws[k] {
        WatchedOpen(c.terms, ws, m);
      } else {
        WatchedBeside(c.terms, ws, m, k);
      }
    }
  }

  // An unwatched open term comes on top of the watched ones.
  lemma {:induction false} WatchedBeside(ts: seq<Term>, ws: seq<bool>, m: Model, k: nat)
    requires |ws| == |ts| && NonNegative(ts) && (forall j :: 0 <= j < |ts| && ws[j] ==> !False(m, ts[j].l))
    requires k < |ts| && !ws[k] && !False(m, ts[k].l)
    ensures OpenSum(ts, m) >= WatchedSum(ts, ws) + ts[k].w
  {
    var n := |ts| - 1;
    assert ts[n] in ts && forall t :: t in ts[..n] ==> t in ts;
    if k < n {
      WatchedBeside(ts[..n], ws[..n], m, k);
    } else {
      WatchedOpen(ts[..n], ws[..n], m);
    }
  }

  // The bindings that make just the literals off the watches false.
  ghost predicate OffWatch(c: Constr, ws: seq<bool>, l: Lit)
    requires |ws| == |c.terms|
  {
    exists j :: 0 <= j < |ws| && !ws[j] && c.terms[j].l == l
  }

  ghost function OnlyWatches(c: Constr, ws: seq<bool>, n: nat): Model
    requires |ws| == |c.terms|
  {
    seq(n, v requires 0 <= v < n => if OffWatch(c, ws, Lit(v, true)) then -1 else if OffWatch(c, ws, Lit(v, false)) then 1 else 0)
  }

  lemma {:induction false} WatchedExactly(ts: seq<Term>, ws: seq<bool>, m: Model)
    requires |ws| == |ts| && forall j :: 0 <= j < |ts| ==> (ws[j] <==> !False(m, ts[j].l))
    ensures WatchedSum(ts, ws) == OpenSum(ts, m)
  {
    if ts != [] {
      WatchedExactly(ts[..|ts| - 1], ws[..|ts| - 1], m);
    }
  }

  lemma OnlyWatchesOpen(c: Constr, ws: seq<bool>, n: nat, k: nat)
    requires ConstrOk(c, n) && |ws| == |c.terms| && k < |ws|
    ensures var m, l := OnlyWatches(c, ws, n), c.terms[k].l; l.v < n && (False(m, l) <==> !ws[k]) && (ws[k] ==> m[l.v] == 0)
  {
    var l := c.terms[k].l;
    assert c.terms[k] in c.terms;
    forall j | 0 <= j < |ws| && c.terms[j].l.v == l.v ensures j == k {
    }
    assert l == Lit(l.v, l.pos) && (!ws[k] ==> OffWatch(c, ws, l));
  }

  // What watching misses: while no watched literal is false and they reach the degree, a visit is not due; some
  // bindings then force a free literal exactly when a watched weight exceeds what the watches leave above the degree.
  lemma MissedExactly(c: Constr, n: nat, ws: seq<bool>)
    requires ConstrOk(c, n) && |ws| == |c.terms| && WatchedSum(c.terms, ws) >= c.card
    ensures AmplyWatched(c, ws) <==> forall m: Model, l: Lit :: |m| == n && WatchesOpen(c, ws, m) ==> !Forceable(c, m, l)
  {
    if AmplyWatched(c, ws) {
      forall m: Model | |m| == n && WatchesOpen(c, ws, m) ensures forall l :: !Forceable(c, m, l) {
        WatchesForceNone(c, n, ws, m);
      }
    } else {
      var k :| 0 <= k < |ws| && ws[k] && c.terms[k].w > WatchedSum(c.terms, ws) - c.card;
      var m := OnlyWatches(c, ws, n);
      forall j | 0 <= j < |ws| ensures False(m, c.terms[j].l) <==> !ws[j] {
        OnlyWatchesOpen(c, ws, n, j);
      }
      OnlyWatchesOpen(c, ws, n, k);
      WatchedExactly(c.terms, ws, m);
      assert Forceable(c, m, c.terms[k].l);
    }
  }

  // A constraint that holds already forces nothing.
  lemma SatisfiedForcesNone(c: Constr, n: nat, m: Model)
    requires ConstrOk(c, n) && Sum(c.terms, TrueNow(m)) >= c.card
    ensures forall l :: !Forceable(c, m, l)
  {
    forall k | 0 <= k < |c.terms| && c.terms[k].l.v < |m| && m[c.terms[k].l.v] == 0
      ensures OpenSum(c.terms, m) - c.card >= c.terms[k].w
    {
      assert forall t :: t in c.terms ==> TrueNow(m)(t) <= NotFalse(m)(t);
      OpenBeside(c, n, m, k, TrueNow(m));
    }
  }

  // A sum of non-negative terms only grows.
  lemma MoreIsMore(ts: seq<Term>, i: nat, m: Model)
    requires NonNegative(ts) && i <= |ts|
    ensures Sum(ts[..i], TrueNow(m)) <= Sum(ts, TrueNow(m))
  {
    assert ts == ts[..i] + ts[i..];
    SumConcat(ts[..i], ts[i..], TrueNow(m));
    SumNonNegative(ts[i..], TrueNow(m));
  }

  // The watches right after updateWatchPB: none is false, and they outweigh the degree.
  ghost predicate WatchedAnew(c: Constr, ws: seq<bool>, m: Model)
  {
    |ws| == |c.terms| && WatchedSum(c.terms, ws) > c.card
    && forall k :: 0 <= k < |c.terms| && ws[k] ==> !False(m, c.terms[k].l)
  }

  lemma {:induction false} WatchedPrefix(ts: seq<Term>, ws: seq<bool>, m: Model, stop: nat)
    requires |ws| == |ts| && stop <= |ts|
    requires forall j :: 0 <= j < |ts| ==> (ws[j] <==> j < stop && !False(m, ts[j].l))
    ensures WatchedSum(ts, ws) == OpenSum(ts[..stop], m)
  {
    if ts != [] {
      var n := |ts| - 1;
      if stop == |ts| {
        assert ts[..stop] == ts;
        WatchedPrefix(ts[..n], ws[..n], m, n);
        assert ts[..n][..n] == ts[..n];
      } else {
        WatchedPrefix(ts[..n], ws[..n], m, stop);
        assert ts[..n][..stop] == ts[..stop];
      }
    }
  }

  function NothingWatched(cs: seq<Constr>): seq<seq<bool>>
  {
    seq(|cs|, i requires 0 <= i < |cs| => seq(|cs[i].terms|, _ => false))
  }

  function NoLists(nbVars: nat): Lists { map p: Lit | p in AllLits(nbVars) :: [] }

  lemma StartLists(cs: seq<Constr>, nbVars: nat)
    requires forall i :: 0 <= i < |cs| ==> Loadable(cs[i], nbVars)
    ensures ListsOk(cs, NothingWatched(cs), NoLists(nbVars), nbVars)
    ensures forall i :: 0 <= i < |cs| ==> NothingWatched(cs)[i] == seq(|cs[i].terms|, _ => false)
    ensures forall i :: 0 <= i < |cs| ==> ConstrOk(cs[i], nbVars) && cs[i].card >= 1
  {
    forall p: Lit | p.v < nbVars ensures p in AllLits(nbVars) {
      assert p == Lit(p.v, p.pos);
    }
    hide ConstrOk, AllLits;
  }

  lemma StartBindings(cs: seq<Constr>, nbVars: nat)
    ensures Stacked(seq(nbVars, _ => 0), [], 1) && Reasoned(cs, seq(nbVars, _ => 0), [], seq(nbVars, _ => None))
  {
  }

  lemma UnitFree(m: Model, t: seq<Lit>, units: seq<Lit>, k: nat, cs: seq<Constr>, reason: seq<Option<nat>>)
    requires k < |units| && t == units[..k] && DistinctVars(units) && Stacked(m, t, 1) && units[k].v < |m|
    requires Reasoned(cs, m, t, reason) && forall v :: 0 <= v < |reason| && m[v] == 0 ==> reason[v] == None
    ensures units[..k + 1] == t + [units[k]]
    ensures var m' := m[units[k].v := SignedLevel(units[k], 1)];
            Stacked(m', t + [units[k]], 1) && Reasoned(cs, m', t + [units[k]], reason)
  {
    var v := units[k].v;
    var own := Lit(v, m[v] > 0);
    assert m[v] != 0 ==> True(m, own);
    forall l | l in t ensures l.v != v {
      var j :| 0 <= j < k && units[j] == l;
    }
    PushTrail(m, t, units[k], 1);
    PushUnreasoned(cs, m, t, reason, units[k], 1);
  }

  lemma AllFree(m: Model, t: seq<Lit>, cs: seq<Constr>, i: nat, ws: seq<bool>)
    requires TrailOk(m, t) && i < |cs| && forall c, t', u :: c in cs && t' in c.terms && u in t ==> t'.l.v != u.v
    requires |ws| == |cs[i].terms| && WatchedSum(cs[i].terms, ws) > cs[i].card
    ensures WatchedAnew(cs[i], ws, m)
  {
    forall k | 0 <= k < |cs[i].terms| ensures !False(m, cs[i].terms[k].l) {
      var l := cs[i].terms[k].l;
      assert cs[i] in cs && cs[i].terms[k] in cs[i].terms;
      FalseInTrail(m, t, l);
    }
  }

  lemma AnewCovers(c: Constr, ws: seq<bool>, m: Model, done: set<Lit>)
    requires WatchedAnew(c, ws, m)
    ensures CoveredUpTo(c, ws, m, done)
  {
    forall b: nat ensures Covered(c, ws, UpTo(m, b), done) {
      assert forall l: Lit :: False(UpTo(m, b), l) ==> False(m, l);
    }
  }

  lemma PushUnreasoned(cs: seq<Constr>, m: Model, t: seq<Lit>, reason: seq<Option<nat>>, l: Lit, lvl: nat)
    requires Reasoned(cs, m, t, reason) && Stacked(m, t, lvl) && l.v < |m| && m[l.v] == 0 && reason[l.v] == None
    ensures Reasoned(cs, m[l.v := SignedLevel(l, lvl)], t + [l], reason)
  {
    var m', t' := m[l.v := SignedLevel(l, lvl)], t + [l];
    forall j | 0 <= j < |t'| && reason[t'[j].v].Some?
      ensures reason[t'[j].v].value < |cs| && Propagated(Context(t', m', []), j, cs[reason[t'[j].v].value])
    {
      assert j < |t|;
      RestrictedPush(m, t, l, SignedLevel(l, lvl), j);
      assert t'[j] == t[j] && True(m, t[j]);
      assert Propagated(Context(t, m, []), j, cs[reason[t[j].v].value]);
    }
  }

  lemma AllExtend(cs: seq<Constr>, watched: seq<seq<bool>>, m: Model, m': Model, t: seq<Lit>, nbVars: nat)
    requires AllCovered(cs, watched, m, Elems(t)) && Extends(m, m') && TrailOk(m, t)
    requires forall i :: 0 <= i < |cs| ==> ConstrOk(cs[i], nbVars)
    ensures AllCovered(cs, watched, m', Elems(t))
  {
    forall i | 0 <= i < |cs| ensures CoveredUpTo(cs[i], watched[i], m', Elems(t)) {
      ExtendKeeps(cs[i], watched[i], m, m', Elems(t));
    }
  }

  // The constraints still to visit have not been checked against lit; all the others have.
  ghost predicate PartlyVisited(cs: seq<Constr>, watched: seq<seq<bool>>, m: Model, done: set<Lit>, lit: Lit, todo: seq<nat>)
  {
    |watched| == |cs| && NoRepeat(todo) && (forall i :: i in todo ==> i < |cs|)
    && forall i :: 0 <= i < |cs| ==> CoveredUpTo(cs[i], watched[i], m, if i in todo then done else done + {lit})
  }

  lemma NotListed(cs: seq<Constr>, watched: seq<seq<bool>>, wl: Lists, nbVars: nat, m: Model, done: set<Lit>, lit: Lit)
    requires ListsOk(cs, watched, wl, nbVars) && lit.v < nbVars && AllCovered(cs, watched, m, done)
    ensures lit in wl && PartlyVisited(cs, watched, m, done, lit, wl[lit])
  {
    forall i | 0 <= i < |cs| ensures CoveredUpTo(cs[i], watched[i], m, if i in wl[lit] then done else done + {lit}) {
      if i !in wl[lit] {
        assert !Watching(cs, watched, i, lit);
      }
    }
    forall i | i in wl[lit] ensures i < |cs| {
      assert Watching(cs, watched, i, lit);
    }
  }

  lemma Listed(cs: seq<Constr>, watched: seq<seq<bool>>, m: Model, done: set<Lit>, lit: Lit, todo: seq<nat>)
    requires PartlyVisited(cs, watched, m, done, lit, todo) && todo != []
    ensures todo[0] < |cs|
  {
    assert todo[0] in todo;
  }

  lemma TrailBound(m: Model, t: seq<Lit>, ptr: nat, lvl: nat)
    requires Stacked(m, t, lvl) && ptr < |t| && Level(m, t[ptr].v) == lvl
    ensures forall l :: l in Elems(t[..ptr]) + {t[ptr]} ==> True(m, l)
    ensures True(m, t[ptr]) && t[ptr].v < |m|
  {
    assert forall l :: l in t[..ptr] ==> l in t;
    assert forall l :: l in t ==> True(m, l);
  }

  lemma VisitsDone(cs: seq<Constr>, watched: seq<seq<bool>>, m: Model, t: seq<Lit>, ptr: nat, todo: seq<nat>)
    requires ptr < |t| && PartlyVisited(cs, watched, m, Elems(t[..ptr]), t[ptr], todo) && todo == []
    ensures AllCovered(cs, watched, m, Elems(t[..ptr + 1]))
  {
    assert t[..ptr + 1] == t[..ptr] + [t[ptr]];
    assert Elems(t[..ptr + 1]) == Elems(t[..ptr]) + {t[ptr]};
  }

  lemma Visited(cs: seq<Constr>, w0: seq<seq<bool>>, w1: seq<seq<bool>>, m0: Model, m1: Model, t: seq<Lit>, done: set<Lit>,
                ptr: nat, lvl: nat, todo: seq<nat>, nbVars: nat)
    requires todo != [] && todo[0] < |cs| && ptr < |t| && PartlyVisited(cs, w0, m0, done, t[ptr], todo)
    requires |w1| == |cs| && forall j :: 0 <= j < |cs| && j != todo[0] ==> w1[j] == w0[j]
    requires Extends(m0, m1) && Stacked(m1, t, lvl) && Level(m1, t[ptr].v) == lvl
    requires forall l :: l in done + {t[ptr]} ==> True(m0, l)
    requires forall i :: 0 <= i < |cs| ==> ConstrOk(cs[i], nbVars)
    requires (Sum(cs[todo[0]].terms, TrueNow(m1)) >= cs[todo[0]].card && w1 == w0) || WatchedAnew(cs[todo[0]], w1[todo[0]], m1)
    ensures PartlyVisited(cs, w1, m1, done, t[ptr], todo[1..])
  {
    var i0, lit := todo[0], t[ptr];
    assert forall k :: 0 <= k < |todo| - 1 ==> todo[1..][k] == todo[k + 1];
    assert forall i :: i in todo <==> i == i0 || i in todo[1..];
    assert i0 !in todo[1..];
    hide Extends, Stacked, WatchedAnew, CoveredUpTo, ConstrOk;
    forall i | 0 <= i < |cs| ensures CoveredUpTo(cs[i], w1[i], m1, if i in todo[1..] then done else done + {lit}) {
      ExtendKeeps(cs[i], w0[i], m0, m1, if i in todo then done else done + {lit});
      if i == i0 {
        BoundLevels(m1, t, lvl);
        VisitKeeps(cs[i], w0[i], w1[i], m1, done, lit, lvl);
      }
    }
  }

  lemma ConstrVars(c: Constr, n: nat)
    requires ConstrOk(c, n)
    ensures forall k :: 0 <= k < |c.terms| ==> c.terms[k].l.v < n
  {
    assert forall k :: 0 <= k < |c.terms| ==> c.terms[k] in c.terms;
  }

  lemma FirstTerm(c: Constr, n: nat)
    requires Loadable(c, n)
    ensures c.terms != [] && c.terms[0].w > 0 && c.card >= 1
  {
    assert c.terms[0] in c.terms;
  }

  lemma NoTerms(ts: seq<Term>, f: Term -> int)
    ensures Sum(ts[..0], f) == 0
  {
  }

  lemma BoundLevels(m: Model, t: seq<Lit>, lvl: nat)
    requires Stacked(m, t, lvl)
    ensures forall v :: 0 <= v < |m| ==> Level(m, v) <= lvl
  {
    forall v | 0 <= v < |m| ensures Level(m, v) <= lvl {
      if m[v] != 0 {
        assert True(m, Lit(v, m[v] > 0));
      }
    }
  }

  lemma NothingMissed(cs: seq<Constr>, watched: seq<seq<bool>>, m: Model, t: seq<Lit>, lvl: nat, nbVars: nat)
    requires AllCovered(cs, watched, m, Elems(t)) && Stacked(m, t, lvl) && forall i :: 0 <= i < |cs| ==> ConstrOk(cs[i], nbVars)
    ensures forall i, b: nat :: 0 <= i < |cs| ==> OpenSum(cs[i].terms, UpTo(m, b)) >= cs[i].card
    ensures forall i, l :: 0 <= i < |cs| && AmplyWatched(cs[i], watched[i]) ==> !Forceable(cs[i], m, l)
  {
    forall i, l | 0 <= i < |cs| && AmplyWatched(cs[i], watched[i]) ensures !Forceable(cs[i], m, l) {
      BoundLevels(m, t, lvl);
      AmplyForcesNone(cs[i], nbVars, watched[i], m, Elems(t), lvl);
    }
    forall i, b: nat | 0 <= i < |cs| ensures OpenSum(cs[i].terms, UpTo(m, b)) >= cs[i].card {
      NoConflictMissed(cs[i], watched[i], m, Elems(t), b);
    }
  }
}
