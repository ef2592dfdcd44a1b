// The pseudo-boolean parts together: constraints as they are parsed and simplified are what propagation loads,
// and a conflict that propagation returns is what conflict analysis starts from.
module PbEngine {
  import opened Logic
  import opened Bindings
  import opened Linear
  import opened PbClause
  import opened PbWatch
  import opened Resolution
  import opened PbPropagation
  import opened PbSet
  import S = SimplifyPb
  import opened Simplify

  // A constraint left by the simplification can be loaded, in whatever order its terms are.
  lemma LeftLoadable(c: Constr, m: Model)
    requires S.Stable(c, m) && S.Regular(c) && S.Proper(c, |m|)
    ensures Loadable(c, |m|)
  {
  }

  lemma UnitsApart(units: seq<Lit>, m: Model)
    requires S.NoneTwice(units) && UnitsBound(m, units)
    ensures DistinctVars(units) && forall u :: u in units ==> u.v < |m| && m[u.v] != 0
  {
    forall i, j | 0 <= i < j < |units| ensures units[i].v != units[j].v {
      assert True(m, units[i]) && True(m, units[j]);
    }
    forall u | u in units ensures m[u.v] != 0 {
      assert True(m, u);
    }
  }

  // Parses, simplifies and loads constraints. Nothing is lost on the way, and all of them start covered.
  method Load(nbVars: nat, constrs: seq<Constr>) returns (status: Status, p: Propagator?)
    requires S.AllRegular(constrs) && forall c, t :: c in constrs && t in c.terms ==> t.l.v < nbVars
    ensures status == IsUnsat ==> p == null && S.NoSolution(constrs, [])
    ensures status != IsUnsat ==> p != null && fresh(p) && p.nbVars == nbVars && S.SameSolutions(constrs, [], p.constraints, p.trail)
    ensures status != IsUnsat ==> p.Shape() && p.Bindings(1) && AllCovered(p.constraints, p.watched, p.model, Elems(p.trail))
    ensures status != IsUnsat ==> p.reason == seq(nbVars, _ => None)
  {
    hide S.NoSolution, S.SameSolutions, S.Stable, S.AllProper, S.NoneTwice, UnitsBound, Loadable, ListsOk, AllCovered, Elems,
      WatchedUpTo, AmplyWatched, FirstLargest, DistinctVars;
    assert forall c, t :: c in constrs && t in c.terms ==> S.Regular(c) && t.w >= 0;
    assert forall c :: c in constrs ==> Positive(c.terms);
    var problem := new S.Problem.ParsePBConstrs(nbVars, constrs);
    status := problem.status;
    if status == IsUnsat {
      return status, null;
    }
    var cs, units := S.Values(problem.clauses), problem.units;
    AllLoadable(cs, units, problem.model);
    UnitsApart(units, problem.model);
    p := new Propagator(nbVars, cs, units);
  }

  lemma AllLoadable(cs: seq<Constr>, units: seq<Lit>, m: Model)
    requires (forall k :: 0 <= k < |cs| ==> S.Stable(cs[k], m)) && S.AllRegular(cs) && S.AllProper(cs, |m|)
    requires UnitsBound(m, units)
    ensures forall i :: 0 <= i < |cs| ==> Loadable(cs[i], |m|)
    ensures forall c, t, u :: c in cs && t in c.terms && u in units ==> t.l.v != u.v
  {
    forall i | 0 <= i < |cs| ensures Loadable(cs[i], |m|) {
      assert cs[i] in cs;
      LeftLoadable(cs[i], m);
    }
    forall c, t, u | c in cs && t in c.terms && u in units ensures t.l.v != u.v {
      var k :| 0 <= k < |cs| && cs[k] == c;
      assert S.Stable(cs[k], m) && True(m, u);
    }
  }

  // ----- from propagation to analysis -----

  function ReasonsOf(cs: seq<Constr>, reason: seq<Option<nat>>): (r: seq<Option<Constr>>)
    ensures |r| == |reason|
  {
    seq(|reason|, v requires 0 <= v < |reason| =>
      if reason[v].Some? && reason[v].value < |cs| then Some(cs[reason[v].value]) else None)
  }

  function ContextOf(cs: seq<Constr>, m: Model, t: seq<Lit>, reason: seq<Option<nat>>): Context
  {
    Context(t, m, ReasonsOf(cs, reason))
  }

  ghost function LevelBefore(m: Model, t: seq<Lit>, i: nat): nat
    requires i <= |t|
  {
    if i == 0 then 1 else Level(m, t[i - 1].v)
  }

  ghost predicate LayerAt(m: Model, t: seq<Lit>, reason: seq<Option<nat>>, units: set<Lit>, i: nat)
    requires i < |t| && |reason| == |m|
  {
    var l := t[i];
    l.v < |m| && 1 <= Level(m, l.v) <= LevelBefore(m, t, i) + 1
    && if Level(m, l.v) == 1 then reason[l.v] == None ==> l in units
       else reason[l.v] == None <==> Level(m, l.v) > LevelBefore(m, t, i)
  }

  // Levels go up one at a time; above level 1 the first literal of a level is a decision and all others are forced;
  // at level 1 what is not forced is in units.
  ghost predicate Layered(m: Model, t: seq<Lit>, reason: seq<Option<nat>>, units: set<Lit>)
  {
    |reason| == |m| && forall i :: 0 <= i < |t| ==> LayerAt(m, t, reason, units, i)
  }

  // Propagation at the level of the last literal keeps the layers.
  lemma GrewLayered(m: Model, t: seq<Lit>, r: seq<Option<nat>>, m': Model, t': seq<Lit>, r': seq<Option<nat>>, lvl: nat, units: set<Lit>)
    requires Grew(m, t, r, m', t', r', lvl) && Stacked(m, t, lvl) && Layered(m, t, r, units) && LevelBefore(m, t, |t|) == lvl
    requires t != []
    ensures Layered(m', t', r', units) && t' != [] && LevelBefore(m', t', |t'|) == lvl
  {
    forall i | 0 <= i < |t|
      ensures t'[i] == t[i] && t[i].v < |m| && Level(m', t[i].v) == Level(m, t[i].v) && r'[t[i].v] == r[t[i].v]
    {
      assert True(m, t[i]);
    }
    hide Stacked, Level, Extends;
    forall i | 0 <= i < |t'| ensures LayerAt(m', t', r', units, i) {
      if i < |t| {
        assert LayerAt(m, t, r, units, i);
      }
    }
  }

  // A decision opens a new level; a fact belongs to level 1.
  lemma PushLayered(m: Model, t: seq<Lit>, r: seq<Option<nat>>, l: Lit, lvl: nat, units: set<Lit>)
    requires Stacked(m, t, lvl) && Layered(m, t, r, units) && l.v < |m| && m[l.v] == 0 && r[l.v] == None
    requires if lvl == 1 then l in units else lvl == LevelBefore(m, t, |t|) + 1
    ensures var m', t' := m[l.v := SignedLevel(l, lvl)], t + [l]; Layered(m', t', r, units) && LevelBefore(m', t', |t'|) == lvl
  {
    var m', t' := m[l.v := SignedLevel(l, lvl)], t + [l];
    forall i | 0 <= i < |t| ensures t'[i] == t[i] && Level(m', t[i].v) == Level(m, t[i].v) {
      assert True(m, t[i]);
    }
    assert Level(m', l.v) == lvl >= 1 && (lvl == 1 ==> LevelBefore(m, t, |t|) == 1) by {
      assert t != [] ==> LayerAt(m, t, r, units, |t| - 1);
    }
    hide Stacked, Level, SignedLevel;
    forall i | 0 <= i < |t'| ensures LayerAt(m', t', r, units, i) {
      if i < |t| {
        assert LayerAt(m, t, r, units, i);
      }
    }
  }

  // What position k must meet.
  ghost predicate ReadyAt(x: Context, cs: seq<Constr>, units: set<Lit>, k: nat)
    requires k < |x.trail| && |x.reason| == |x.model|
  {
    ReasonAt(x, k) && LevelAt(x, k) <= (if k == 0 then 1 else LevelAt(x, k - 1)) + 1
    && match x.reason[x.trail[k].v]
       case Some(c) => c in cs
       case None => LevelAt(x, k) == 1 ==> x.trail[k] in units
  }

  lemma LayerReady(cs: seq<Constr>, m: Model, t: seq<Lit>, reason: seq<Option<nat>>, units: set<Lit>, k: nat)
    requires Reasoned(cs, m, t, reason) && Layered(m, t, reason, units) && k < |t|
    ensures ReadyAt(ContextOf(cs, m, t, reason), cs, units, k)
  {
    assert LayerAt(m, t, reason, units, k);
    var x := ContextOf(cs, m, t, reason);
    hide Restricted, ConstrOk, OpenSum;
    if reason[t[k].v].Some? {
      assert Propagated(Context(t, m, []), k, cs[reason[t[k].v].value]);
      assert Propagated(x, k, cs[reason[t[k].v].value]);
    }
  }

  lemma AllReady(x: Context, cs: seq<Constr>, units: set<Lit>)
    requires |x.reason| == |x.model| && TrailOk(x.model, x.trail) && DistinctVars(x.trail)
    requires forall k :: 0 <= k < |x.trail| ==> ReadyAt(x, cs, units, k)
    ensures WellBound(x) && FromDb(x, cs, units)
  {
    hide TrailOk, LevelAt, DistinctVars, Propagated, Decides;
    assert x.trail != [] ==> ReadyAt(x, cs, units, 0);
    forall k | 0 <= k < |x.trail| ensures ReasonAt(x, k) && (k > 0 ==> LevelAt(x, k) <= LevelAt(x, k - 1) + 1) {
      assert ReadyAt(x, cs, units, k);
    }
    WellBoundIs(x);
    forall k | 0 <= k < |x.trail|
      ensures match x.reason[x.trail[k].v]
              case Some(c) => c in cs
              case None => LevelAt(x, k) == 1 ==> x.trail[k] in units
    {
      assert ReadyAt(x, cs, units, k);
    }
  }

  // A constraint falsified at level lvl meets every condition of the analysis.
  lemma ConflictReady(cs: seq<Constr>, m: Model, t: seq<Lit>, reason: seq<Option<nat>>, lvl: nat, units: set<Lit>)
    requires Stacked(m, t, lvl) && Reasoned(cs, m, t, reason) && Layered(m, t, reason, units)
    requires t != [] && LevelBefore(m, t, |t|) == lvl
    ensures var x := ContextOf(cs, m, t, reason); WellBound(x) && FromDb(x, cs, units) && LevelAt(x, |t| - 1) == lvl
  {
    var x := ContextOf(cs, m, t, reason);
    forall k | 0 <= k < |t| ensures ReadyAt(x, cs, units, k) {
      LayerReady(cs, m, t, reason, units, k);
    }
    hide Reasoned, Layered, ReadyAt, WellBound, FromDb;
    AllReady(x, cs, units);
  }

  // Decides a literal, propagates it and analyses the conflict, if there is one. Whatever is learned is justified, and
  // a database that can be met is reported unsatisfiable only where the analysis meets a decision.
  method DecideAndAnalyse(p: Propagator, lit: Lit, lvl: nat, ghost units: set<Lit>)
    returns (confl: Option<nat>, outcome: Option<Outcome>)
    requires p.Shape() && p.Bindings(lvl) && AllCovered(p.constraints, p.watched, p.model, Elems(p.trail))
    requires lit.v < p.nbVars && p.model[lit.v] == 0 && p.reason[lit.v] == None && lvl >= 2
    requires Layered(p.model, p.trail, p.reason, units) && lvl == LevelBefore(p.model, p.trail, |p.trail|) + 1
    modifies p
    ensures p.Shape() && p.Bindings(lvl) && Layered(p.model, p.trail, p.reason, units)
    ensures confl == None ==> outcome == None && AllCovered(p.constraints, p.watched, p.model, Elems(p.trail))
    ensures confl.Some? ==> confl.value < |p.constraints| && outcome.Some?
                            && Justified(outcome.value, p.model, p.constraints, units)
    ensures confl.Some? && !Impossible(p.constraints, units) ==>
              (outcome.value.Refuted? <==> DecisionMet(p.constraints, p.model, p.trail, p.reason, confl.value, lvl))
  {
    hide Reasoned, Stacked, Layered, AllCovered, ListsOk, Grew, WellBound, FromDb, ConstrOk, Justified, Impossible, DecisionMet,
      Unwatched, AmplyWatched, Forceable, Elems, Sum, LevelAt;
    ghost var m0, t0, r0 := p.model[lit.v := SignedLevel(lit, lvl)], p.trail + [lit], p.reason;
    BeforeDecision(p.model, p.trail, p.reason, lit, lvl, units);
    confl := p.UnifyLiteral(lit, lvl);
    GrewLayered(m0, t0, r0, p.model, p.trail, p.reason, lvl, units);
    if confl == None {
      return confl, None;
    }
    ConflictReady(p.constraints, p.model, p.trail, p.reason, lvl, units);
    var reasons := ReasonsOf(p.constraints, p.reason);
    var analysis := new Analysis(p.trail, p.model, reasons);
    var o := analysis.CuttingPlanes(p.constraints[confl.value], lvl, p.constraints, units);
    outcome := Some(o);
    DecisionMetIs(p.constraints, p.model, p.trail, p.reason, confl.value, lvl);
  }

  // The analysis of the conflict meets a decision.
  ghost predicate DecisionMet(cs: seq<Constr>, m: Model, t: seq<Lit>, reason: seq<Option<nat>>, i: nat, lvl: nat)
  {
    var x := ContextOf(cs, m, t, reason);
    i < |cs| && t != [] && WellBound(x) && ConstrOk(cs[i], |m|)
    && MeetsDecision(x, State(Dense(cs[i].terms, |m|), cs[i].card, |t| - 1, lvl))
  }

  lemma DecisionMetIs(cs: seq<Constr>, m: Model, t: seq<Lit>, reason: seq<Option<nat>>, i: nat, lvl: nat)
    requires i < |cs| && t != [] && WellBound(ContextOf(cs, m, t, reason)) && ConstrOk(cs[i], |m|)
    ensures DecisionMet(cs, m, t, reason, i, lvl)
            <==> MeetsDecision(ContextOf(cs, m, t, reason), State(Dense(cs[i].terms, |m|), cs[i].card, |t| - 1, lvl))
  {
  }

  lemma BeforeDecision(m: Model, t: seq<Lit>, r: seq<Option<nat>>, l: Lit, lvl: nat, units: set<Lit>)
    requires Stacked(m, t, lvl) && Layered(m, t, r, units) && l.v < |m| && m[l.v] == 0 && r[l.v] == None && lvl >= 2
    requires lvl == LevelBefore(m, t, |t|) + 1
    ensures var m', t' := m[l.v := SignedLevel(l, lvl)], t + [l];
            Layered(m', t', r, units) && LevelBefore(m', t', |t'|) == lvl && Stacked(m', t', lvl) && t' != []
  {
    PushLayered(m, t, r, l, lvl, units);
    PushStacked(m, t, l, lvl);
  }
}
