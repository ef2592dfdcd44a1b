// The conflict-driven search of solver/watcher.go, solver/learn.go and solver/solver.go on propositional
// clauses. A clause is named by its index in the arena `clauses`, which stands for the Go pointer.
module Solver {
  import opened Logic
  import opened UnitProp
  import opened Bindings
  import opened Watches
  import opened State
  import opened Learn
  import opened Backjump
  import opened Certificate
  import opened Progress
  import opened Steps
  import opened Refinement
  import opened FirstUip
  import opened Ledger
  import Q = Queue
  import L = LbdStats

  // What visiting one watcher does to the list under review.
  datatype Visit = Keep(w: Watcher) | Moved | Conflict(w: Watcher)

  // A learned clause of two literals or more with its block distance, or a learned literal.
  datatype Learnt = LearntUnit(unit: Lit) | LearntClause(lits: Clause, lbd: nat)

  ghost function LitsOf(l: Learnt): Clause { if l.LearntUnit? then [l.unit] else l.lits }

  class Solver {
    const nbVars: nat
    ghost const problem: seq<Clause>
    ghost const units: seq<Lit>
    var cert: seq<Clause>  // the clauses written to the certificate so far
    var status: Status
    var learned: seq<nat>
    var polarity: seq<bool>
    var clauses: Db
    var info: seq<ClauseInfo>
    ghost var live: set<nat>
    var model: Model
    var trail: seq<Lit>
    var reason: Reasons
    var wlistBin: Lists
    var wlist: Lists
    var queue: Q.Queue
    var varInc: real
    const stats: L.LbdStats
    var tab: Tab

    // Loads a problem: the unit literals bound at level 1, all clauses watched, all variables queued.
    constructor (nbVars: nat, problem: seq<Clause>, units: seq<Lit>, activity: seq<real>)
      requires ProblemOk(nbVars, problem, units) && |activity| == nbVars
      ensures this.nbVars == nbVars && this.problem == problem && this.units == units && cert == [] && status == Indet
      ensures Resting() && fresh(queue) && fresh(stats) && stats.Valid()
    {
      hide Sound, ProblemOk, LoadedSoFar, Books, LearnedOk, Unreasoned, Queued, Q.Indexed, Q.Queue.Entries, Q.Queue.Valid, Tally,
        Elems, WithClause, NoWatchers, L.Stands, L.LbdStats.Valid;
      this.nbVars, this.problem, this.units, this.cert, this.status := nbVars, problem, units, [], Indet;
      clauses, info, live, learned, polarity := [], [], {}, [], seq(nbVars, _ => false);
      model, trail, reason := seq(nbVars, _ => 0), [], seq(nbVars, _ => None);
      wlist, wlistBin := NoWatchers(nbVars), NoWatchers(nbVars);
      varInc := 1.0;
      queue := new Q.Queue(activity);
      stats := new L.LbdStats();
      tab := Tab(0, 0, 0, 0, 1, InitNbMaxClauses);
      new;
      StartSound(Snapshot(), nbVars, wlist, wlistBin);
      BindUnits(units);
      LoadClauses(problem);
      LoadAll(Snapshot(), nbVars, wlist, wlistBin, problem, units, queue.Entries());
      TallyStart(Snapshot(), nbVars);
    }

    method BindUnits(lits: seq<Lit>)
      requires lits == units && Shape() && ProblemOk(nbVars, problem, units) && trail == [] && live == {}
      requires reason == seq(nbVars, _ => None) && Sound(Snapshot(), nbVars, wlist, wlistBin, Elems(trail), 1)
      modifies this`model, this`trail
      ensures Shape() && trail == units && Sound(Snapshot(), nbVars, wlist, wlistBin, Elems(trail), 1)
    {
      hide Sound, ProblemOk;
      for i := 0 to |lits|
        invariant Shape() && trail == units[..i]
        invariant Sound(Snapshot(), nbVars, wlist, wlistBin, Elems(trail), 1)
      {
        UnitStart(Snapshot(), nbVars, wlist, wlistBin, problem, units, i);
        model := model[lits[i].v := SignedLevel(lits[i], 1)];
        trail := trail + [lits[i]];
      }
    }

    method LoadClauses(cs: seq<Clause>)
      requires cs == problem && Shape() && ProblemOk(nbVars, problem, units) && trail == units && live == {} && clauses == []
      requires Sound(Snapshot(), nbVars, wlist, wlistBin, Elems(trail), 1)
      modifies this`clauses, this`info, this`live, this`wlist, this`wlistBin
      ensures Shape() && Sound(Snapshot(), nbVars, wlist, wlistBin, Elems(trail), 1)
      ensures |clauses| == |problem| && LoadedSoFar(Snapshot(), problem, |problem|)
    {
      hide Sound, ProblemOk, LoadedSoFar;
      LoadNone(Snapshot(), nbVars, problem, units);
      for i := 0 to |cs|
        invariant Shape() && |clauses| == i && LoadedSoFar(Snapshot(), problem, i)
        invariant Sound(Snapshot(), nbVars, wlist, wlistBin, Elems(trail), 1)
      {
        LoadOne(Snapshot(), nbVars, wlist, wlistBin, problem, units, i);
        clauses := clauses + [cs[i]];
        info := info + [ClauseInfo(false, false, 0)];
        live := live + {i};
        WatchClause(i);
      }
    }

    ghost function Snapshot(): Core
      reads this
    {
      Core(model, trail, reason, clauses, info, live)
    }

    ghost predicate Shape()
      reads this
    {
      |model| == |reason| == nbVars && |info| == |clauses|
    }

    predicate LitTrue(l: Lit)
      requires l.v < |model|
      reads this`model
    {
      model[l.v] != 0 && (model[l.v] > 0) == l.pos
    }

    predicate LitFalse(l: Lit)
      requires l.v < |model|
      reads this`model
    {
      model[l.v] != 0 && (model[l.v] > 0) != l.pos
    }

    // Binds `unit`, forced by the long clause c.
    method PropagateUnit(c: nat, lvl: nat, unit: Lit, ghost wl: Lists, ghost done: set<Lit>)
      requires Shape() && Sound(Snapshot(), nbVars, wl, wlistBin, done, lvl) && lvl >= 1
      requires unit.v < nbVars && model[unit.v] == 0 && c in live && c < |clauses| && unit in clauses[c]
      requires forall l :: l in clauses[c] && l != unit ==> False(model, l)
      modifies this`model, this`trail, this`reason, this`info
      ensures Shape() && Sound(Snapshot(), nbVars, wl, wlistBin, done, lvl) && True(model, unit)
      ensures Grown(old(Snapshot()), Snapshot(), lvl)
    {
      hide Sound, Grown, True, False;
      SoundForce(Snapshot(), nbVars, wl, wlistBin, done, lvl, unit, c, true);
      reason := reason[unit.v := Some(c)];
      info := info[c := info[c].(locked := true)];
      model := model[unit.v := SignedLevel(unit, lvl)];
      trail := trail + [unit];
    }

    // Looks for a literal of clause c, past the two watched ones, that is not false, and watches it instead of -lit.
    method Rewatch(c: nat, lit: Lit, lvl: nat, w: Watcher, ghost view: Lists, ghost j: nat, ghost done: set<Lit>)
      returns (found: bool)
      requires Shape() && Sound(Snapshot(), nbVars, view, wlistBin, done, lvl)
      requires lit in view && j < |view[lit]| && view[lit][j].clause == c && view == wlist[lit := view[lit]]
      requires lit in wlist && Visited(model, clauses, view[lit], j)
      requires c < |clauses| && |clauses[c]| >= 3 && clauses[c][1] == lit.Neg()
      requires w.clause == c && w.other in clauses[c] && forall l :: l in clauses[c] ==> l.v < nbVars
      modifies this`wlist, this`clauses
      ensures Shape() && Grown(old(Snapshot()), Snapshot(), lvl) && lit in wlist
      ensures found ==> Sound(Snapshot(), nbVars, wlist[lit := Without(view[lit], j)], wlistBin, done, lvl)
      ensures found ==> Visited(model, clauses, Without(view[lit], j), j)
      ensures !found ==> wlist == old(wlist) && clauses == old(clauses)
      ensures !found ==> forall i :: 2 <= i < |clauses[c]| ==> False(model, clauses[c][i])
    {
      hide Sound, Grown, Visited;
      ghost var s, ws := Snapshot(), view[lit];
      GrownRefl(s, lvl);
      for k := 2 to |clauses[c]|
        invariant Snapshot() == s && wlist == old(wlist)
        invariant forall i :: 2 <= i < k ==> False(model, clauses[c][i])
      {
        var litK := clauses[c][k];
        if !LitFalse(litK) {
          SoundMove(s, nbVars, view, wlistBin, done, lvl, lit, j, k, w);
          VisitedSwap(model, clauses, ws, j, c, 1, k);
          var neg := litK.Neg();
          clauses := clauses[c := Swap(clauses[c], 1, k)];
          wlist := wlist[neg := wlist[neg] + [w]];
          VisitedSame(model, clauses, ws, Without(ws, j), j);
          assert view[lit := Without(ws, j)][neg := view[neg] + [w]] == wlist[lit := Without(ws, j)];
          return true;
        }
      }
      return false;
    }

    // Makes sure the second literal of clause c is -lit.
    method MakeSecond(c: nat, lit: Lit, lvl: nat, ghost view: Lists, ghost j: nat, ghost done: set<Lit>)
      requires Shape() && Sound(Snapshot(), nbVars, view, wlistBin, done, lvl)
      requires lit in view && j < |view[lit]| && Visited(model, clauses, view[lit], j)
      requires c < |clauses| && |clauses[c]| >= 3 && (clauses[c][0] == lit.Neg() || clauses[c][1] == lit.Neg())
      modifies this`clauses
      ensures Shape() && Sound(Snapshot(), nbVars, view, wlistBin, done, lvl)
      ensures Grown(old(Snapshot()), Snapshot(), lvl) && Visited(model, clauses, view[lit], j)
      ensures c < |clauses| && |clauses[c]| >= 3 && clauses[c][1] == lit.Neg()
      ensures forall l :: l in clauses[c] <==> l in old(clauses[c])
    {
      hide Sound, Grown, Visited;
      GrownRefl(Snapshot(), lvl);
      if clauses[c][0] == lit.Neg() {
        SoundExchange(Snapshot(), nbVars, view, wlistBin, done, lvl, c);
        VisitedSwap(model, clauses, view[lit], j, c, 0, 1);
        SwapMembers(clauses[c], 0, 1);
        clauses := clauses[c := Swap(clauses[c], 0, 1)];
      }
    }

    // One watcher of the list of `lit`, which has just become true. In `view` the list holds the watchers
    // kept so far followed by those still to visit, w first.
    method VisitWatcher(lit: Lit, lvl: nat, w: Watcher, ghost view: Lists, ghost j: nat, ghost done: set<Lit>)
      returns (r: Visit)
      requires Shape() && Sound(Snapshot(), nbVars, view, wlistBin, done, lvl) && lvl >= 1
      requires lit in view && j < |view[lit]| && view[lit][j] == w && view == wlist[lit := view[lit]] && lit in wlist
      requires Visited(model, clauses, view[lit], j) && True(model, lit) && Level(model, lit.v) == lvl
      modifies this`wlist, this`clauses, this`model, this`trail, this`reason, this`info
      ensures Shape() && Grown(old(Snapshot()), Snapshot(), lvl)
      ensures lit in wlist
      ensures r.Moved? ==> Sound(Snapshot(), nbVars, wlist[lit := Without(view[lit], j)], wlistBin, done, lvl)
      ensures r.Moved? ==> Visited(model, clauses, Without(view[lit], j), j)
      ensures !r.Moved? ==> r.w.clause == w.clause
      ensures !r.Moved? ==> Sound(Snapshot(), nbVars, wlist[lit := view[lit][j := r.w]], wlistBin, done, lvl)
      ensures r.Keep? ==> Visited(model, clauses, view[lit][j := r.w], j + 1)
      ensures r.Conflict? ==> ConflictAt(Snapshot(), w.clause, lvl)
    {
      hide Sound, Grown, Visited, ConflictAt, ClauseOk, Level;
      ghost var s0, ws := Snapshot(), view[lit];
      WatcherOfSound(s0, nbVars, view, wlistBin, done, lvl, lit, j);
      GrownRefl(s0, lvl);
      if LitTrue(w.other) {
        VisitedOne(model, clauses, ws, j, w.other);
        assert ws[j := w] == ws;
        return Keep(w);
      }
      var c := w.clause;
      MakeSecond(c, lit, lvl, view, j, done);
      ghost var s1 := Snapshot();
      var first := clauses[c][0];
      assert first in clauses[c];
      var w2 := Watcher(first, c);
      ghost var ws2 := ws[j := w2];
      SoundReblock(s1, nbVars, view, wlistBin, done, lvl, lit, j, w2);
      VisitedSame(model, clauses, ws, ws2, j);
      assert view[lit := ws2] == wlist[lit := ws2];
      if LitTrue(first) {
        VisitedOne(model, clauses, ws2, j, first);
        return Keep(w2);
      }
      var found := Rewatch(c, lit, lvl, w2, view, j, done);
      if found {
        SoundTrans(s0, s1, Snapshot(), nbVars, view, wlistBin, done, lvl);
        return Moved;
      }
      if LitFalse(first) {
        ConflictFound(s1, c, lit, lvl);
        return Conflict(w2);
      }
      RestFalse(s1, c, lit);
      PropagateUnit(c, lvl, first, wlist[lit := ws2], done);
      SoundTrans(s0, s1, Snapshot(), nbVars, view, wlistBin, done, lvl);
      VisitedGrown(s1, Snapshot(), ws2, j, lvl);
      FirstStays(s1, Snapshot(), c, first, lvl);
      VisitedOne(model, clauses, ws2, j, first);
      return Keep(w2);
    }

    // Visits the long clauses that watch -lit, compacting the list of lit in place.
    method SimplifyPropClauses(lit: Lit, lvl: nat, ghost done: set<Lit>) returns (confl: Option<nat>)
      requires Shape() && Sound(Snapshot(), nbVars, wlist, wlistBin, done, lvl) && lvl >= 1
      requires lit in wlist && True(model, lit) && Level(model, lit.v) == lvl
      modifies this`wlist, this`clauses, this`model, this`trail, this`reason, this`info
      ensures Shape() && Sound(Snapshot(), nbVars, wlist, wlistBin, done, lvl)
      ensures Grown(old(Snapshot()), Snapshot(), lvl) && lit in wlist
      ensures confl == None ==> Visited(model, clauses, wlist[lit], |wlist[lit]|)
      ensures confl.Some? ==> ConflictAt(Snapshot(), confl.value, lvl)
    {
      hide Sound, Grown, Visited, ConflictAt, Level;
      ghost var s0 := Snapshot();
      var wl := wlist[lit];
      var i, j := 0, 0;
      GrownRefl(s0, lvl);
      VisitedNone(model, clauses, wl);
      assert wl[..0] + wl[0..] == wl && wlist[lit := wl] == wlist;
      while i < |wl|
        invariant 0 <= j <= i <= |wl| && lit in wlist && Shape()
        invariant Sound(Snapshot(), nbVars, wlist[lit := wl[..j] + wl[i..]], wlistBin, done, lvl)
        invariant Visited(model, clauses, wl[..j] + wl[i..], j)
        invariant Grown(s0, Snapshot(), lvl) && True(model, lit) && Level(model, lit.v) == lvl
      {
        ghost var ws, s1 := wl[..j] + wl[i..], Snapshot();
        ghost var view := wlist[lit := ws];
        assert view == wlist[lit := view[lit]];
        var r := VisitWatcher(lit, lvl, wl[i], view, j, done);
        StaysTrue(s1, Snapshot(), lit, lvl);
        SoundTrans(s0, s1, Snapshot(), nbVars, view, wlistBin, done, lvl);
        match r {
          case Keep(w) =>
            KeepView(wl, i, j, w);
            wl := wl[j := w];
            j := j + 1;
          case Moved =>
            assert Without(ws, j) == wl[..j] + wl[i + 1..];
          case Conflict(w) =>
            KeepView(wl, i, j, w);
            wl := wl[j := w];
            j := j + 1;
            wlist := wlist[lit := wl[..j] + wl[i + 1..]];  // keep the remaining watchers
            return Some(w.clause);
        }
        i := i + 1;
      }
      assert wl[..j] + wl[i..] == wl[..j];
      wlist := wlist[lit := wl[..j]];
      return None;
    }

    // Visits the binary clauses that contain -lit.
    method PropagateBin(lit: Lit, lvl: nat, ghost done: set<Lit>) returns (confl: Option<nat>)
      requires Shape() && Sound(Snapshot(), nbVars, wlist, wlistBin, done, lvl) && lvl >= 1
      requires lit in wlistBin && True(model, lit) && Level(model, lit.v) == lvl
      modifies this`model, this`trail, this`reason
      ensures Shape() && Sound(Snapshot(), nbVars, wlist, wlistBin, done, lvl)
      ensures Grown(old(Snapshot()), Snapshot(), lvl)
      ensures confl == None ==> Visited(model, clauses, wlistBin[lit], |wlistBin[lit]|)
      ensures confl.Some? ==> ConflictAt(Snapshot(), confl.value, lvl)
    {
      hide Sound, Grown, Visited, ConflictAt, Level;
      ghost var s0 := Snapshot();
      var ws := wlistBin[lit];
      GrownRefl(s0, lvl);
      VisitedNone(model, clauses, ws);
      for i := 0 to |ws|
        invariant Shape() && Sound(Snapshot(), nbVars, wlist, wlistBin, done, lvl)
        invariant Visited(model, clauses, ws, i)
        invariant Grown(s0, Snapshot(), lvl) && True(model, lit) && Level(model, lit.v) == lvl
      {
        var w := ws[i];
        ghost var s1 := Snapshot();
        BinOfSound(s1, nbVars, wlist, wlistBin, done, lvl, lit, i);
        if model[w.other.v] == 0 {
          SoundForce(s1, nbVars, wlist, wlistBin, done, lvl, w.other, w.clause, false);
          reason := reason[w.other.v := Some(w.clause)];
          model := model[w.other.v := SignedLevel(w.other, lvl)];
          trail := trail + [w.other];
          assert Snapshot() == ForcedBy(s1, w.other, lvl, w.clause, false);
          StaysTrue(s1, Snapshot(), lit, lvl);
          SoundTrans(s0, s1, Snapshot(), nbVars, wlist, wlistBin, done, lvl);
          VisitedGrown(s1, Snapshot(), ws, i, lvl);
        } else if (model[w.other.v] > 0) != w.other.pos {
          BinConflict(s1, w, lit, lvl);
          return Some(w.clause);
        }
        VisitedOne(model, clauses, ws, i, w.other);
      }
      return None;
    }

    // Visits every clause that watches -lit.
    method PropagateLit(lit: Lit, lvl: nat, ghost done: set<Lit>) returns (confl: Option<nat>)
      requires Shape() && Sound(Snapshot(), nbVars, wlist, wlistBin, done, lvl) && lvl >= 1
      requires lit in trail && lit.v < nbVars && True(model, lit) && Level(model, lit.v) == lvl
      modifies this`wlist, this`clauses, this`model, this`trail, this`reason, this`info
      ensures Shape() && Grown(old(Snapshot()), Snapshot(), lvl)
      ensures Sound(Snapshot(), nbVars, wlist, wlistBin, done, lvl)
      ensures confl == None ==> Sound(Snapshot(), nbVars, wlist, wlistBin, done + {lit}, lvl)
      ensures confl.Some? ==> ConflictAt(Snapshot(), confl.value, lvl)
    {
      hide Sound, Grown, Visited, ConflictAt, Level, True;
      ghost var s1 := Snapshot();
      SoundFacts(s1, nbVars, wlist, wlistBin, done, lvl);
      confl := PropagateBin(lit, lvl, done);
      if confl.Some? {
        return;
      }
      ghost var s2, wl2 := Snapshot(), wlist;
      SoundFacts(s2, nbVars, wlist, wlistBin, done, lvl);
      StaysTrue(s1, s2, lit, lvl);
      confl := SimplifyPropClauses(lit, lvl, done);
      ghost var s3 := Snapshot();
      SoundTrans(s1, s2, s3, nbVars, wl2, wlistBin, done, lvl);
      if confl == None {
        SoundFacts(s3, nbVars, wlist, wlistBin, done, lvl);
        StaysTrue(s2, s3, lit, lvl);
        VisitedGrown(s2, s3, wlistBin[lit], |wlistBin[lit]|, lvl);
        InTrailStays(s1, s3, lit, lvl);
        SoundNext(s3, nbVars, wlist, wlistBin, done, lvl, lit);
      }
    }

    // Propagates the trail from position ptr on, all at level lvl. Afterwards either every literal of the
    // trail has been propagated, or a clause is false: exactly as naive unit propagation decides, and with
    // the same literals.
    method Propagate(ptr: nat, lvl: nat) returns (confl: Option<nat>)
      requires Shape() && ptr <= |trail| && lvl >= 1
      requires Sound(Snapshot(), nbVars, wlist, wlistBin, Elems(trail[..ptr]), lvl)
      requires forall i :: ptr <= i < |trail| ==> Level(model, trail[i].v) == lvl
      modifies this`wlist, this`clauses, this`model, this`trail, this`reason, this`info
      ensures Shape() && Grown(old(Snapshot()), Snapshot(), lvl)
      ensures confl == None ==> Sound(Snapshot(), nbVars, wlist, wlistBin, Elems(trail), lvl)
      ensures confl.Some? ==> Sound(Snapshot(), nbVars, wlist, wlistBin, Elems(old(trail)[..ptr]), lvl)
      ensures confl.Some? ==> ConflictAt(Snapshot(), confl.value, lvl)
      ensures confl == None <==> !Conflicting(LiveBags(old(Snapshot())), Elems(old(trail)))
      ensures confl == None ==> Stable(LiveBags(old(Snapshot())), Elems(trail))
      ensures |old(trail)| <= |trail|
      ensures confl == None ==> Derives(LiveBags(old(Snapshot())), Elems(old(trail)), trail[|old(trail)|..])
    {
      hide Sound, Grown, Visited, ConflictAt, Level, True, Conflicting, Stable, Derives, LiveBags, Elems, FreeVars, TrailOk;
      ghost var s0 := Snapshot();
      var p := ptr;
      GrownRefl(s0, lvl);
      SoundFacts(s0, nbVars, wlist, wlistBin, Elems(trail[..ptr]), lvl);
      while p < |trail|
        invariant ptr <= p <= |trail| && Shape()
        invariant Sound(Snapshot(), nbVars, wlist, wlistBin, Elems(trail[..p]), lvl)
        invariant Grown(s0, Snapshot(), lvl)
        invariant forall i :: ptr <= i < |trail| ==> Level(model, trail[i].v) == lvl
        decreases FreeVars(model), |trail| - p
      {
        var lit := trail[p];
        ghost var done, s1, wl1 := Elems(trail[..p]), Snapshot(), wlist;
        SoundFacts(s1, nbVars, wlist, wlistBin, done, lvl);
        confl := PropagateLit(lit, lvl, done);
        ghost var s3 := Snapshot();
        SoundTrans(s0, s1, s3, nbVars, wl1, wlistBin, done, lvl);
        if confl.Some? {
          SoundEarlier(s0, s1, s3, nbVars, wlist, wlistBin, done, ptr, p, lvl);
          SoundTrail(s3, nbVars, wlist, wlistBin, done, lvl);
          ConflictReached(s0, s3, nbVars, confl.value, lvl);
          return;
        }
        SoundTrail(s3, nbVars, wlist, wlistBin, done + {lit}, lvl);
        GrownFree(s1, s3, lvl);
        PrefixStays(s1, s3, p, lvl);
        SuffixLevels(s0, s3, ptr, lvl);
        p := p + 1;
      }
      assert trail[..p] == trail;
      FixpointReached(s0, Snapshot(), nbVars, wlist, wlistBin, lvl);
      return None;
    }

    // ----- learning -----

    ghost predicate QueueOk()
      reads this`queue, queue
    {
      queue.Valid() && |queue.indices| == |queue.activity| == nbVars
    }

    // Activities are exact reals here; they only steer the order of decisions.
    method BumpVar(v: nat)
      requires QueueOk() && v < nbVars
      modifies queue, this`varInc
      ensures QueueOk() && queue.Entries() == old(queue.Entries())
    {
      queue.activity := queue.activity[v := queue.activity[v] + varInc];
      if queue.activity[v] > 1e100 {
        var activity := queue.activity;
        queue.activity := seq(|activity|, i requires 0 <= i < |activity| => activity[i] * 1e-100);
        varInc := varInc * 1e-100;
      }
      if queue.Contains(v) {
        queue.Decrease(v);
      }
    }

    // Marks the literals of the conflict.
    method AddClauseLits(confl: Clause, lvl: nat) returns (met: seq<bool>, metLvl: seq<bool>, lits: seq<Lit>, nbLvl: int)
      requires Shape() && QueueOk() && TrailOk(model, trail) && LevelsUpTo(model, trail, lvl)
      requires AllFalse(model, confl) && DistinctVars(confl)
      modifies queue, this`varInc
      ensures QueueOk() && queue.Entries() == old(queue.Entries())
      ensures Walk(Snapshot(), confl, lvl, met, metLvl, lits, |trail| - 1)
      ensures OnWay(Snapshot(), confl, lvl, metLvl, lits, |trail| - 1)
      ensures Counts(lvl, nbLvl, |MarkedBelow(trail, metLvl, |trail|)|)
      ensures (exists l :: l in confl && Level(model, l.v) == lvl) ==> nbLvl >= 1
    {
      hide Marking, NoMarks, OnWay, MarkedBelow, LevelsUpTo, TrailOk, Walk, Level, Counts, AllFalse, DistinctVars,
        QueueOk, Q.Queue.Entries;
      ghost var s := Snapshot();
      met, metLvl, lits, nbLvl := NoMarks(nbVars), NoMarks(nbVars), [Lit(0, true)], 0;
      MarkingStart(s, nbVars, confl, lvl);
      for i := 0 to |confl|
        invariant QueueOk() && queue.Entries() == old(queue.Entries()) && |met| == |metLvl| == nbVars
        invariant Marking(s, nbVars, confl, lvl, met, metLvl, lits, nbLvl, i)
      {
        var l := confl[i];
        MarkingNext(s, nbVars, confl, lvl, met, metLvl, lits, nbLvl, i);
        if Level(model, l.v) == lvl {
          metLvl := metLvl[l.v := true];
          nbLvl := nbLvl + 1;
        } else {
          lits := lits + [l];
        }
        met := met[l.v := true];
        BumpVar(l.v);
      }
      MarkingDone(s, nbVars, confl, lvl, met, metLvl, lits, nbLvl);
    }

    // Moves down the trail to the next marked literal.
    method SkipUnmarked(ghost confl: Clause, lvl: nat, met0: seq<bool>, metLvl: seq<bool>, ghost lits: seq<Lit>, ptr0: int)
      returns (met: seq<bool>, ptr: int)
      requires Shape() && TrailOk(model, trail) && |met0| == |metLvl| == nbVars
      requires Walk(Snapshot(), confl, lvl, met0, metLvl, lits, ptr0) && |MarkedBelow(trail, metLvl, ptr0 + 1)| >= 1
      requires OnWay(Snapshot(), confl, lvl, metLvl, lits, ptr0)
      ensures 0 <= ptr <= ptr0 && ptr < |trail| && trail[ptr].v < nbVars && metLvl[trail[ptr].v] && |met| == nbVars
      ensures Walk(Snapshot(), confl, lvl, met, metLvl, lits, ptr) && OnWay(Snapshot(), confl, lvl, metLvl, lits, ptr)
      ensures MarkedBelow(trail, metLvl, ptr + 1) == MarkedBelow(trail, metLvl, ptr0 + 1)
    {
      hide Walk, OnWay, MarkedBelow, TrailOk, Level;
      met, ptr := met0, ptr0;
      ghost var s := Snapshot();
      WalkRange(s, confl, lvl, met, metLvl, lits, ptr);
      while !metLvl[trail[ptr].v]
        invariant 0 <= ptr <= ptr0 && ptr < |trail| && |met| == nbVars && trail[ptr].v < nbVars
        invariant Walk(s, confl, lvl, met, metLvl, lits, ptr) && OnWay(s, confl, lvl, metLvl, lits, ptr)
        invariant MarkedBelow(trail, metLvl, ptr + 1) == MarkedBelow(trail, metLvl, ptr0 + 1)
        decreases ptr
      {
        OnWayPass(s, confl, lvl, met, metLvl, lits, ptr);
        PassOne(s, confl, lvl, met, metLvl, lits, ptr);
        if Level(model, trail[ptr].v) == lvl {
          met := met[trail[ptr].v := true];
        }
        ptr := ptr - 1;
        WalkRange(s, confl, lvl, met, metLvl, lits, ptr);
      }
    }

    // Takes the literals of the reason of trail[p] into account.
    method ReadReason(c: nat, p: nat, ghost confl: Clause, lvl: nat, met0: seq<bool>, metLvl0: seq<bool>, lits0: seq<Lit>, nbLvl0: int)
      returns (met: seq<bool>, metLvl: seq<bool>, lits: seq<Lit>, nbLvl: int)
      requires Shape() && QueueOk() && CoreOk(Snapshot(), nbVars) && LevelsUpTo(model, trail, lvl)
      requires p < |trail| && trail[p].v < nbVars && reason[trail[p].v] == Some(c) && c < |clauses|
      requires |met0| == |metLvl0| == nbVars && metLvl0[trail[p].v]
      requires OnWay(Snapshot(), confl, lvl, metLvl0, lits0, p - 1)
      requires Walk(Snapshot(), confl, lvl, met0, metLvl0, lits0, p) && Counts(lvl, nbLvl0, |MarkedBelow(trail, metLvl0, p)|)
      modifies queue, this`varInc
      ensures QueueOk() && queue.Entries() == old(queue.Entries())
      ensures |met| == |metLvl| == nbVars
      ensures Walk(Snapshot(), confl, lvl, met, metLvl, lits, p - 1) && Counts(lvl, nbLvl, |MarkedBelow(trail, metLvl, p)|)
      ensures nbLvl >= nbLvl0 && OnWay(Snapshot(), confl, lvl, metLvl, lits, p - 1)
    {
      hide Walk, OnWay, Tracing, MarkedBelow, CoreOk, LevelsUpTo, Level, QueueOk, Q.Queue.Entries;
      ghost var s := Snapshot();
      met, metLvl, lits, nbLvl := met0, metLvl0, lits0, nbLvl0;
      TracingStart(s, nbVars, confl, lvl, met, metLvl, lits, nbLvl, p, c);
      for i := 0 to |clauses[c]|
        invariant QueueOk() && queue.Entries() == old(queue.Entries()) && |met| == |metLvl| == nbVars
        invariant Tracing(s, nbVars, confl, lvl, met, metLvl, lits, nbLvl, p, c, i) && nbLvl >= nbLvl0
      {
        var l := clauses[c][i];
        TracingNext(s, nbVars, confl, lvl, met, metLvl, lits, nbLvl, p, c, i);
        if !met[l.v] {
          if Level(model, l.v) == lvl {
            metLvl := metLvl[l.v := true];
            nbLvl := nbLvl + 1;
          } else {
            lits := lits + [l];
          }
          met := met[l.v := true];
          BumpVar(l.v);
        }
      }
      TracingDone(s, nbVars, confl, lvl, met, metLvl, lits, nbLvl, p, c);
    }

    // Stands for sort.Sort by decreasing level.
    method SortLiterals(lits: seq<Lit>) returns (r: seq<Lit>)
      ensures multiset(r) == multiset(lits) && SortedByLevel(model, r)
    {
      hide Level, SortedByLevel;
      r := [];
      assert lits[..0] == [];
      SortedNone(model);
      for i := 0 to |lits|
        invariant multiset(r) == multiset(lits[..i]) && SortedByLevel(model, r)
      {
        assert lits[..i + 1] == lits[..i] + [lits[i]];
        r := InsertByLevel(r, lits[i]);
      }
      assert lits[..|lits|] == lits;
    }

    method InsertByLevel(c: seq<Lit>, l: Lit) returns (r: seq<Lit>)
      requires SortedByLevel(model, c)
      ensures multiset(r) == multiset(c) + multiset{l} && SortedByLevel(model, r)
    {
      hide Level, SortedByLevel;
      var k := 0;
      while k < |c| && Level(model, c[k].v) >= Level(model, l.v)
        invariant 0 <= k <= |c|
        invariant forall j :: 0 <= j < k ==> Level(model, c[j].v) >= Level(model, l.v)
      {
        k := k + 1;
      }
      InsertSorted(model, c, l, k);
      r := c[..k] + [l] + c[k..];
    }

    // Drops, in place, the literals whose reason was met entirely.
    method MinimizeLearned(met: seq<bool>, lits: seq<Lit>, ghost lvl: nat) returns (learned: seq<Lit>, sz: nat)
      requires Shape() && CoreOk(Snapshot(), nbVars) && |met| == nbVars && Asserting(Snapshot(), lvl, lits)
      ensures 1 <= sz <= |learned| && Asserting(Snapshot(), lvl, learned[..sz]) && learned[0] == lits[0]
      ensures Minimised(Snapshot(), met, lits, learned[..sz])
    {
      hide CoreOk, Asserting, Redundant, TrailOk, Picked, Minimised;
      ghost var s := Snapshot();
      learned, sz := lits, 1;
      TrailOf(s, nbVars);
      AssertingVars(s, lvl, lits);
      PickedFirst(s, met, lits);
      assert learned[..1] == [lits[0]];
      for i := 1 to |lits|
        invariant 1 <= sz <= i && |learned| == |lits| && learned[i..] == lits[i..] && learned[0] == lits[0]
        invariant Picked(s, met, lits, learned[..sz], i)
      {
        var l := lits[i];
        assert learned[i] == learned[i..][0] == l;
        var keep := true;
        NoReasonKept(s, met, l);
        if reason[l.v].Some? {
          keep := UnmetLiteral(reason[l.v].value, met, l);
        }
        if keep {
          PickedMore(s, met, lits, learned[..sz], i);
          ghost var before := learned[..sz];
          learned := learned[sz := l];
          assert learned[..sz + 1] == before + [l];
          sz := sz + 1;
        } else {
          PickedSkip(s, met, lits, learned[..sz], i);
        }
      }
      PickedDone(s, lvl, met, lits, learned[..sz]);
    }

    // Does clause c, the reason of -l, hold a literal that was not met?
    method UnmetLiteral(c: nat, met: seq<bool>, ghost l: Lit) returns (found: bool)
      requires Shape() && CoreOk(Snapshot(), nbVars) && |met| == nbVars && l.v < nbVars && reason[l.v] == Some(c)
      requires l.Neg() in trail
      ensures found <==> !Redundant(Snapshot(), met, l)
    {
      ReasonVars(Snapshot(), nbVars, c, l.Neg());
      hide CoreOk;
      for k := 0 to |clauses[c]|
        invariant forall i :: 0 <= i < k ==> met[clauses[c][i].v]
      {
        assert clauses[c][k] in clauses[c];
        if !met[clauses[c][k].v] {
          return true;
        }
      }
      return false;
    }

    // The block distance: the number of levels of the literals, which are sorted by level.
    method ComputeLbd(c: Clause) returns (lbd: nat)
      requires |c| >= 1 && SortedByLevel(model, c)
      ensures lbd == |LevelsIn(model, c)|
    {
      hide SortedByLevel, Level;
      lbd := 1;
      var curLvl := Level(model, c[0].v);
      FirstLevel(model, c);
      for i := 0 to |c|
        invariant curLvl == Level(model, c[if i == 0 then 0 else i - 1].v)
        invariant lbd == |LevelsIn(model, c[..if i == 0 then 1 else i])|
      {
        NextLevel(model, c, i);
        var lvl := Level(model, c[i].v);
        if lvl != curLvl {
          curLvl := lvl;
          lbd := lbd + 1;
        }
      }
      assert c[..|c|] == c;
    }

    // Walks the trail down to the first unique implication point of the conflict and collects the literals
    // of the clause, the asserting one first.
    method CollectLits(confl: nat, lvl: nat) returns (met: seq<bool>, ghost metLvl: seq<bool>, lits: seq<Lit>, ghost u: nat)
      requires Shape() && QueueOk() && CoreOk(Snapshot(), nbVars) && LevelsUpTo(model, trail, lvl)
      requires ConflictAt(Snapshot(), confl, lvl)
      modifies queue, this`varInc
      ensures QueueOk() && queue.Entries() == old(queue.Entries())
      ensures |met| == nbVars && confl < |clauses|
      ensures Finished(Snapshot(), clauses[confl], lvl, met, metLvl, lits, u)
      ensures |lits| >= 1 && Level(model, lits[0].v) == lvl >= 1 && False(model, lits[0])
      ensures lvl >= 2 ==> Traced(Snapshot(), clauses[confl], lvl, u, lits)
    {
      hide Walk, OnWay, Traced, MarkedBelow, CoreOk, LevelsUpTo, Finished, AllFalse, ConflictAt, TrailOk, DistinctVars, Level, QueueOk,
        Q.Queue.Entries;
      ghost var s := Snapshot();
      ConflictFacts(s, nbVars, confl, lvl);
      ghost var cl := clauses[confl];
      var nbLvl, marks;
      met, marks, lits, nbLvl := AddClauseLits(clauses[confl], lvl);
      var ptr := |trail| - 1;
      WalkVectors(s, cl, lvl, met, marks, lits, ptr);
      TrailOf(s, nbVars);
      while nbLvl > 1
        invariant QueueOk() && queue.Entries() == old(queue.Entries()) && |met| == |marks| == nbVars
        invariant Walk(s, cl, lvl, met, marks, lits, ptr) && OnWay(s, cl, lvl, marks, lits, ptr)
        invariant Counts(lvl, nbLvl, |MarkedBelow(trail, marks, ptr + 1)|) && nbLvl >= 1
        decreases ptr
      {
        met, ptr := SkipUnmarked(cl, lvl, met, marks, lits, ptr);
        var v := trail[ptr].v;
        OnWayPop(s, cl, lvl, met, marks, lits, ptr);
        CountPop(trail, marks, ptr);
        nbLvl := nbLvl - 1;
        if reason[v].Some? {
          ReasonInArena(s, nbVars, ptr);
          met, marks, lits, nbLvl := ReadReason(reason[v].value, ptr, cl, lvl, met, marks, lits, nbLvl);
        } else {
          FactDropped(s, nbVars, cl, lvl, met, marks, lits, ptr);
        }
        ptr := ptr - 1;
      }
      var first := FirstMarked(marks, ptr);
      AllFalseIn(s, cl);
      FinishWalk(s, cl, lvl, met, marks, lits, ptr, first);
      OnWayEnd(s, cl, lvl, met, marks, lits, ptr, first);
      TracedHead(s, cl, lvl, first, lits, trail[first].Neg());
      metLvl, u := marks, first;
      lits := lits[0 := trail[first].Neg()];
    }

    // Analyses the conflict at level lvl back to the first unique implication point.
    method LearnClause(confl: nat, lvl: nat) returns (learnt: Learnt)
      requires Shape() && QueueOk() && CoreOk(Snapshot(), nbVars) && LevelsUpTo(model, trail, lvl)
      requires ConflictAt(Snapshot(), confl, lvl)
      modifies queue, this`varInc
      ensures QueueOk() && queue.Entries() == old(queue.Entries())
      ensures Asserting(Snapshot(), lvl, LitsOf(learnt))
      ensures learnt.LearntClause? ==> 2 <= |learnt.lits| && learnt.lbd == |LevelsIn(model, learnt.lits)| <= |learnt.lits|
      ensures forall f :: Known(f, Snapshot()) ==> Rup(f, multiset(LitsOf(learnt)))
      ensures confl < |clauses| && (lvl >= 2 ==> FromUip(Snapshot(), clauses[confl], lvl, LitsOf(learnt)))
    {
      hide FromUip, Traced, CoreOk, LevelsUpTo, Known, Rup, Asserting, Finished, ConflictAt, Collected, Minimised, Level, SortedByLevel;
      ghost var s := Snapshot();
      var met, metLvl, lits, u := CollectLits(confl, lvl);
      ghost var collected := lits;
      FinishedCollected(s, clauses[confl], lvl, met, metLvl, lits, u);
      lits := SortLiterals(lits);
      SortedCollected(s, lvl, met, collected, lits);
      ghost var sorted := lits;
      var sz;
      lits, sz := MinimizeLearned(met, lits, lvl);
      ghost var m := lits[..sz];
      MinimisedSorted(s, met, collected, sorted, m);
      if lvl >= 2 {
        LearntIs(s, nbVars, clauses[confl], lvl, met, metLvl, collected, u, m);
      }
      forall f | Known(f, s) ensures Rup(f, multiset(m)) {
        if lvl == 1 {
          TopLearned(f, s, nbVars, confl, multiset(m));
        } else {
          LearnedRup(f, s, nbVars, confl, lvl, met, metLvl, collected, u, m);
        }
      }
      if sz == 1 {
        assert m == [lits[0]];
        return LearntUnit(lits[0]);
      }
      AssertingSorted(s, lvl, m);
      LevelsFew(model, m);
      var lbd := ComputeLbd(lits[..sz]);
      return LearntClause(lits[..sz], lbd);
    }

    // The first marked literal of the trail.
    method FirstMarked(metLvl: seq<bool>, ptr: int) returns (u: nat)
      requires Shape() && |metLvl| == nbVars && |MarkedBelow(trail, metLvl, ptr + 1)| >= 1
      requires forall i :: 0 <= i < |trail| ==> trail[i].v < nbVars
      ensures u < |trail| && trail[u].v < nbVars && metLvl[trail[u].v]
      ensures forall p :: 0 <= p < u ==> !metLvl[trail[p].v]
    {
      ghost var some :| some in MarkedBelow(trail, metLvl, ptr + 1);
      u := 0;
      while !metLvl[trail[u].v]
        invariant u <= some && forall p :: 0 <= p < u ==> !metLvl[trail[p].v]
        decreases some - u
      {
        u := u + 1;
      }
    }

    // ----- undoing and deciding -----

    // Frees the variable of trail[j] and queues it; says whether it had no entry yet.
    method UndoLit(j: nat, ghost i: nat, ghost s0: Core) returns (absent: bool)
      requires Shape() && QueueOk() && |polarity| == nbVars && CoreOk(s0, nbVars)
      requires trail == s0.trail && j < |trail| && Undone(s0, Snapshot(), i, j)
      requires forall k :: i <= k < |s0.trail| ==> Level(s0.model, s0.trail[k].v) != 1
      modifies this`model, this`reason, this`info, this`polarity, queue`content, queue`indices
      ensures Shape() && QueueOk() && |polarity| == nbVars && Undone(s0, Snapshot(), i, j + 1)
      ensures trail[j].v < nbVars && trail[j].v in queue.Entries() && queue.Entries() >= old(queue.Entries())
      ensures polarity == old(polarity)[trail[j].v := trail[j].pos]
    {
      hide CoreOk, Undone, Vars, Level;
      var lit2 := trail[j];
      var v := lit2.v;
      UndoStep(s0, Snapshot(), nbVars, i, j);
      model := model[v := 0];
      if reason[v].Some? {
        info := info[reason[v].value := info[reason[v].value].(locked := false)];
        reason := reason[v := None];
      }
      polarity := polarity[v := lit2.pos];
      absent := !queue.Contains(v);
      if absent {
        queue.Insert(v);
      } else {
        EntryOf(queue, v);
      }
    }

    // Undoes trail[i..] and returns the variables that had no entry, in the order of the trail.
    method UndoFrom(i: nat) returns (toInsert: seq<nat>)
      requires Shape() && QueueOk() && |polarity| == nbVars && CoreOk(Snapshot(), nbVars) && i <= |trail|
      requires forall k :: i <= k < |trail| ==> Level(model, trail[k].v) != 1
      modifies this`model, this`reason, this`info, this`polarity, queue`content, queue`indices
      ensures Shape() && QueueOk() && |polarity| == nbVars && Undone(old(Snapshot()), Snapshot(), i, |trail|)
      ensures forall k :: i <= k < |trail| ==> trail[k].v in queue.Entries()
      ensures queue.Entries() >= old(queue.Entries()) && Saved(trail[i..], old(polarity), polarity)
      ensures forall k :: 0 <= k < |toInsert| ==> toInsert[k] < nbVars
    {
      hide Saved, CoreOk, Undone, Level, QueueOk, Q.Queue.Entries;
      ghost var s0 := Snapshot();
      UndoNone(s0, i);
      SavedNone(polarity);
      assert s0.trail[i..i] == [];
      toInsert := [];
      for j := i to |trail|
        invariant Shape() && QueueOk() && |polarity| == nbVars && trail == s0.trail
        invariant Undone(s0, Snapshot(), i, j) && Saved(s0.trail[i..j], old(polarity), polarity)
        invariant forall k :: i <= k < j ==> trail[k].v in queue.Entries()
        invariant queue.Entries() >= old(queue.Entries())
        invariant forall k :: 0 <= k < |toInsert| ==> toInsert[k] < nbVars
      {
        SavedNext(s0, nbVars, i, j, old(polarity), polarity);
        var absent := UndoLit(j, i, s0);
        if absent {
          toInsert := toInsert + [trail[j].v];
        }
      }
      assert s0.trail[i..|trail|] == trail[i..];
    }

    // Queues the variables once more, last first.
    method Requeue(vs: seq<nat>)
      requires QueueOk() && forall k :: 0 <= k < |vs| ==> vs[k] < nbVars
      modifies queue`content, queue`indices
      ensures QueueOk() && queue.Entries() >= old(queue.Entries())
    {
      var k := |vs| - 1;
      while k >= 0
        invariant -1 <= k < |vs| && QueueOk() && queue.Entries() >= old(queue.Entries())
      {
        queue.Insert(vs[k]);
        k := k - 1;
      }
    }

    // Undoes the bindings above level lvl. The undone variables are queued, those that were not queued twice.
    method CleanupBindings(lvl: nat, ghost done: set<Lit>, ghost top: nat, ghost guarded: set<nat>)
      requires Shape() && QueueOk() && |polarity| == nbVars && lvl >= 1
      requires SoundFor(Snapshot(), nbVars, wlist, wlistBin, done, top, guarded) && Unreasoned(model, reason, -1)
      requires forall i :: 0 <= i < |trail| && Level(model, trail[i].v) <= lvl ==> trail[i] in done
      requires Queued(model, queue.Entries(), -1)
      modifies this`model, this`trail, this`reason, this`info, this`polarity, queue`content, queue`indices
      ensures Shape() && QueueOk() && |polarity| == nbVars
      ensures Cut(old(Snapshot()), Snapshot(), |trail|, lvl)
      ensures |trail| <= |old(trail)| && Saved(old(trail)[|trail|..], old(polarity), polarity)
      ensures SoundFor(Snapshot(), nbVars, wlist, wlistBin, Elems(trail), lvl, guarded) && Unreasoned(model, reason, -1)
      ensures Queued(model, queue.Entries(), -1)
    {
      hide Saved, SoundFor, CoreOk, Undone, Unreasoned, Queued, SplitsAt, Cut, Vars, TrailOk, Level, QueueOk, Q.Queue.Entries;
      ghost var s0 := Snapshot();
      CleanupFacts(s0, nbVars, wlist, wlistBin, done, top, guarded);
      var i := 0;
      while i < |trail| && Level(model, trail[i].v) <= lvl
        invariant 0 <= i <= |trail| && forall k :: 0 <= k < i ==> Level(model, trail[k].v) <= lvl
        modifies {}
      {
        i := i + 1;
      }
      SplitHere(s0, i, lvl);
      var toInsert := UndoFrom(i);
      UndoAnyTrail(s0, Snapshot(), i, trail[..i]);
      trail := trail[..i];
      Requeue(toInsert);
      CutDone(s0, Snapshot(), nbVars, wlist, wlistBin, done, top, lvl, guarded, i);
      CutQueued(s0, Snapshot(), i, lvl, old(queue.Entries()), queue.Entries());
    }

    // An unbound literal to decide on, or nothing if all variables are bound.
    method ChooseLit() returns (lit: Option<Lit>)
      requires Shape() && QueueOk() && |polarity| == nbVars && Queued(model, queue.Entries(), -1)
      modifies queue`content, queue`indices
      ensures QueueOk()
      ensures lit.Some? ==> lit.value.v < nbVars && model[lit.value.v] == 0 && Queued(model, queue.Entries(), lit.value.v)
      ensures lit.Some? ==> lit.value.pos == polarity[lit.value.v]
      ensures lit == None ==> forall v :: 0 <= v < nbVars ==> model[v] != 0
    {
      hide Q.Indexed;
      while !queue.Empty()
        invariant QueueOk() && Queued(model, queue.Entries(), -1)
        decreases |queue.content|
      {
        ghost var before := queue.Entries();
        assert |before| == |queue.content|;
        var v2 := queue.RemoveMin();
        assert |queue.Entries()| == |queue.content|;
        if model[v2] == 0 {
          return Some(Lit(v2, polarity[v2]));
        }
      }
      return None;
    }

    // Queues the free variables afresh, behind as many entries for variable 0 as there are variables.
    method RebuildOrderHeap()
      requires Shape() && QueueOk()
      modifies queue`content, queue`indices
      ensures QueueOk() && Queued(model, queue.Entries(), -1) && Rebuilt(model, nbVars, queue.Entries(), nbVars)
    {
      var ints: seq<int> := seq(nbVars, _ => 0);
      ZerosCount(model, nbVars, ints);
      for v := 0 to nbVars
        invariant |ints| >= nbVars && forall k :: 0 <= k < |ints| ==> 0 <= ints[k] < nbVars
        invariant forall u :: 0 <= u < v && model[u] == 0 ==> u in ints
        invariant Rebuilt(model, nbVars, multiset(ints), v)
      {
        if model[v] == 0 {
          ints := ints + [v];
        }
      }
      queue.Build(ints);
    }

    // ----- clauses -----

    // Watches a clause that is in the arena.
    method WatchClause(c: nat)
      requires c < |clauses| && |clauses[c]| >= 2 && clauses[c][0].v != clauses[c][1].v
      requires clauses[c][0].Neg() in wlist && clauses[c][1].Neg() in wlist
      requires clauses[c][0].Neg() in wlistBin && clauses[c][1].Neg() in wlistBin
      modifies this`wlist, this`wlistBin
      ensures |clauses[c]| == 2 ==> wlist == old(wlist) && wlistBin == Added(old(wlistBin), c, clauses[c][0], clauses[c][1])
      ensures |clauses[c]| >= 3 ==> wlistBin == old(wlistBin) && wlist == Added(old(wlist), c, clauses[c][0], clauses[c][1])
    {
      var first, second := clauses[c][0], clauses[c][1];
      var neg0, neg1 := first.Neg(), second.Neg();
      if |clauses[c]| == 2 {
        wlistBin := wlistBin[neg0 := wlistBin[neg0] + [Watcher(second, c)]];
        wlistBin := wlistBin[neg1 := wlistBin[neg1] + [Watcher(first, c)]];
      } else {
        wlist := wlist[neg0 := wlist[neg0] + [Watcher(second, c)]];
        wlist := wlist[neg1 := wlist[neg1] + [Watcher(first, c)]];
      }
    }

    // Adds a learned clause to the arena, watches it and writes it to the certificate.
    method AddLearned(c: Clause, lbd: nat, ghost done: set<Lit>, ghost lvl: nat) returns (id: nat)
      requires Shape() && Sound(Snapshot(), nbVars, wlist, wlistBin, done, lvl) && ClauseOk(c, nbVars)
      modifies this`clauses, this`info, this`live, this`learned, this`wlist, this`wlistBin, this`cert
      ensures Shape() && Snapshot() == WithClause(old(Snapshot()), c, ClauseInfo(true, false, lbd))
      ensures id == |old(clauses)| && learned == old(learned) + [id] && cert == old(cert) + [c]
      ensures SoundFor(Snapshot(), nbVars, wlist, wlistBin, done, lvl, old(live))
    {
      hide Sound, SoundFor;
      AddClause(Snapshot(), nbVars, wlist, wlistBin, done, lvl, c, ClauseInfo(true, false, lbd));
      hide Sound, SoundFor, ClauseOk, Added;
      id := |clauses|;
      clauses := clauses + [c];
      info := info + [ClauseInfo(true, false, lbd)];
      live := live + {id};
      learned := learned + [id];
      WatchClause(id);
      cert := cert + [c];
    }

    // ----- deleting learned clauses -----

    // Removes both watchers of a long clause.
    method UnwatchClause(c: nat, ghost done: set<Lit>, ghost lvl: nat)
      requires Shape() && Sound(Snapshot(), nbVars, wlist, wlistBin, done, lvl)
      requires c in live && c < |clauses| && |clauses[c]| >= 3 && !info[c].locked
      modifies this`wlist, this`live
      ensures live == old(live) - {c} && Shape()
      ensures Sound(Snapshot(), nbVars, wlist, wlistBin, done, lvl)
      ensures forall p :: 0 <= p < |trail| && trail[p].v < |reason| ==> reason[trail[p].v] != Some(c)
    {
      hide Sound;
      ghost var s, wl := Snapshot(), wlist;
      var p, q := clauses[c][0].Neg(), clauses[c][1].Neg();
      UnwatchFacts(s, nbVars, wl, wlistBin, done, lvl, c);
      var i := FindWatcher(wlist[p], c);
      wlist := wlist[p := RemoveAt(wlist[p], i)];
      var j := FindWatcher(wlist[q], c);
      wlist := wlist[q := RemoveAt(wlist[q], j)];
      UnwatchSound(s, nbVars, wl, wlistBin, done, lvl, c, i, j);
      live := live - {c};
    }

    // The index of the watcher of c; there is one.
    method FindWatcher(ws: seq<Watcher>, c: nat) returns (j: nat)
      requires Watching(ws, c)
      ensures j < |ws| && ws[j].clause == c
    {
      ghost var some :| 0 <= some < |ws| && ws[some].clause == c;
      j := 0;
      while ws[j].clause != c
        invariant j <= some
        decreases some - j
      {
        j := j + 1;
      }
    }

    // Deletes the clause at position i; the entry in front of n, the end of what is left, takes its place.
    method ForgetLearned(i: nat, n: nat, ghost done: set<Lit>, ghost lvl: nat)
      requires Shape() && Sound(Snapshot(), nbVars, wlist, wlistBin, done, lvl) && i <= n < |learned|
      requires LearnedOk(Snapshot(), learned[..n + 1], |problem|) && Books(problem, units, cert, Snapshot())
      requires learned[i] < |info| && info[learned[i]].lbd > 2 && !info[learned[i]].locked
      modifies this`learned, this`wlist, this`live
      ensures Shape() && Sound(Snapshot(), nbVars, wlist, wlistBin, done, lvl)
      ensures learned == old(learned)[i := old(learned)[n]] && live == old(live) - {old(learned)[i]}
      ensures LearnedOk(Snapshot(), learned[..n], |problem|) && Books(problem, units, cert, Snapshot())
      ensures forall p :: 0 <= p < |trail| && trail[p].v < |reason| ==> reason[trail[p].v] != Some(old(learned)[i])
    {
      hide Sound, Books, LearnedOk;
      ghost var s := Snapshot();
      var c := learned[i];
      LearnedFacts(s, learned[..n + 1], |problem|, i);
      LearnedDeleted(s, learned, n, |problem|, i);
      BooksDeleted(problem, units, cert, s, c);
      learned := learned[i := learned[n]];
      UnwatchClause(c, done, lvl);
      assert Snapshot() == s.(live := s.live - {c});
    }

    // After the first i entries of the sorted list have been looked at; what is left ends at n.
    ghost predicate Reducing(s0: Core, order: seq<nat>, n: nat, i: nat, done: set<Lit>, lvl: nat)
      reads this
    {
      Shape() && Sound(Snapshot(), nbVars, wlist, wlistBin, done, lvl) && Books(problem, units, cert, Snapshot())
      && Snapshot() == s0.(live := live) && n <= |learned| == |order| && i <= |order| && LearnedOk(Snapshot(), learned[..n], |problem|)
      && Reduced(s0, Snapshot(), |problem|) && Pruning(s0.info, order, learned, n, i)
      && forall c :: c in live <==> c in s0.live && c !in Doomed(s0.info, order, i)
    }

    // Deletes the ith clause, or not.
    method ReduceAt(i: nat, n: nat, ghost order: seq<nat>, ghost s0: Core, ghost done: set<Lit>, ghost lvl: nat) returns (gone: bool)
      requires Reducing(s0, order, n, i, done, lvl) && i < |order| / 2
      modifies this`learned, this`wlist, this`live, this`tab
      ensures gone <==> !Spared(info, order[i])
      ensures tab == old(tab).(deleted := old(tab).deleted + if gone then 1 else 0)
      ensures n >= 1 && Reducing(s0, order, if gone then n - 1 else n, i + 1, done, lvl)
      ensures Doomed(info, order, i + 1) == Doomed(info, order, i) + if gone then [order[i]] else []
    {
      hide Sound, Books, LearnedOk, Reduced, Pruning, Doomed;
      PruningFits(s0.info, order, learned, n, i);
      var c := learned[i];
      PruningNext(info, order, learned, n, i);
      LearnedFacts(Snapshot(), learned[..n], |problem|, i);
      gone := info[c].lbd > 2 && !info[c].locked;
      if gone {
        ReducedLater(s0, Snapshot(), |problem|, c);
        tab := tab.(deleted := tab.deleted + 1);
        ForgetLearned(i, n - 1, done, lvl);
      }
    }

    // Deletes clauses of the first half of `learned`, sorted: exactly those whose block distance is above 2 and that
    // are not locked. No deleted clause is the reason of a binding. The list must not be empty.
    method ReduceLearned(order: seq<nat>, ghost done: set<Lit>, ghost lvl: nat)
      requires Shape() && Sound(Snapshot(), nbVars, wlist, wlistBin, done, lvl)
      requires LearnedOk(Snapshot(), learned, |problem|) && |learned| > 0 && multiset(order) == multiset(learned)
      requires Books(problem, units, cert, Snapshot())
      modifies this`learned, this`wlist, this`live, this`tab
      ensures Shape() && Sound(Snapshot(), nbVars, wlist, wlistBin, done, lvl)
      ensures LearnedOk(Snapshot(), learned, |problem|) && Books(problem, units, cert, Snapshot())
      ensures Reduced(old(Snapshot()), Snapshot(), |problem|) && Pruned(old(Snapshot()), Snapshot(), order, learned)
      ensures tab == old(tab).(deleted := old(tab).deleted + |Doomed(info, order, |order| / 2)|,
                               nbMax := old(tab).nbMax + Postponed(info, order))
    {
      hide Sound, Books, LearnedOk, Reduced, Pruning, Pruned, Postponed, Doomed, Spared, Reducing;
      ghost var s0 := Snapshot();
      LearnedPermuted(s0, learned, order, |problem|);
      learned := order;
      var nbLearned := |learned|;
      var length := nbLearned / 2;
      LearnedFacts(s0, learned, |problem|, length);
      PostponedIs(info, order);
      if info[learned[length]].lbd <= 3 {  // lots of good clauses, postpone reduction
        tab := tab.(nbMax := tab.nbMax + IncrPostponeNbMax);
      }
      var nbRemoved := 0;
      ReducingStart(order, done, lvl);
      for i := 0 to length
        invariant 0 <= nbRemoved <= i && nbRemoved == |Doomed(info, order, i)|
        invariant Reducing(s0, order, nbLearned - nbRemoved, i, done, lvl)
        invariant tab == old(tab).(deleted := old(tab).deleted + nbRemoved, nbMax := old(tab).nbMax + Postponed(info, order))
      {
        var gone := ReduceAt(i, nbLearned - nbRemoved, order, s0, done, lvl);
        if gone {
          nbRemoved := nbRemoved + 1;
        }
      }
      ReducingDone(s0, order, nbLearned - nbRemoved, done, lvl);
      learned := learned[..nbLearned - nbRemoved];
    }

    lemma ReducingStart(order: seq<nat>, done: set<Lit>, lvl: nat)
      requires Shape() && Sound(Snapshot(), nbVars, wlist, wlistBin, done, lvl) && Books(problem, units, cert, Snapshot())
      requires LearnedOk(Snapshot(), learned, |problem|) && learned == order
      ensures |Doomed(info, order, 0)| == 0 && Reducing(Snapshot(), order, |order|, 0, done, lvl)
    {
      hide Sound, Books, LearnedOk, Reduced, Pruning;
      assert learned[..|order|] == learned;
      ReducedNone(Snapshot(), |problem|);
      PruningNone(info, order);
    }

    lemma ReducingDone(s0: Core, order: seq<nat>, n: nat, done: set<Lit>, lvl: nat)
      requires Reducing(s0, order, n, |order| / 2, done, lvl)
      ensures Shape() && Sound(Snapshot(), nbVars, wlist, wlistBin, done, lvl) && Books(problem, units, cert, Snapshot())
      ensures n <= |learned| && LearnedOk(Snapshot(), learned[..n], |problem|) && Reduced(s0, Snapshot(), |problem|)
      ensures Pruned(s0, Snapshot(), order, learned[..n]) && s0.info == info
    {
      hide Sound, Books, LearnedOk, Doomed, Pruning, Pruned;
      PrunedDone(s0, Snapshot(), order, learned, n);
    }

    // ----- the search loop -----

    ghost predicate Kept()
      reads this, queue
    {
      Shape() && QueueOk() && |polarity| == nbVars
      && Books(problem, units, cert, Snapshot()) && LearnedOk(Snapshot(), learned, |problem|)
      && |problem| <= |clauses| && CertShape(cert, nbVars)
    }

    // The account of conflicts; open is 1 between a conflict and what is learned from it.
    ghost predicate Tallied(open: nat)
      reads this
    {
      Tally(Snapshot(), learned, nbVars, tab, open)
    }

    // Between two searches: only top-level bindings, all propagated.
    ghost predicate Resting()
      reads this, queue
    {
      Kept() && Tallied(0) && Sound(Snapshot(), nbVars, wlist, wlistBin, Elems(trail), 1) && Unreasoned(model, reason, -1)
      && Queued(model, queue.Entries(), -1)
    }

    // About to bind lit at level lvl.
    ghost predicate Pending(lit: Lit, lvl: nat)
      reads this, queue
    {
      Kept() && Tallied(0) && Ready(Snapshot(), nbVars, wlist, wlistBin, lit, lvl) && Contiguous(Snapshot(), lvl)
      && Queued(model, queue.Entries(), lit.v) && lit.v < nbVars
      && (lit.v < |reason| && reason[lit.v] == None ==> lvl >= 2)
    }

    // All variables are bound and everything is propagated.
    ghost predicate Complete(lvl: nat)
      reads this, queue
    {
      Kept() && Tallied(0) && Sound(Snapshot(), nbVars, wlist, wlistBin, Elems(trail), lvl)
      && forall v :: 0 <= v < nbVars && v < |model| ==> model[v] != 0
    }

    // Binds lit and propagates it.
    method UnifyLiteral(lit: Lit, lvl: nat) returns (confl: Option<nat>)
      requires Shape() && Ready(Snapshot(), nbVars, wlist, wlistBin, lit, lvl) && lit.v < nbVars
      requires Books(problem, units, cert, Snapshot()) && LearnedOk(Snapshot(), learned, |problem|)
      requires reason[lit.v] == None && lvl == 1 ==> multiset{lit} in Bags(Formula(problem, units) + cert)
      modifies this`wlist, this`clauses, this`model, this`trail, this`reason, this`info
      ensures Shape() && Unified(old(Snapshot()), Snapshot(), lit, lvl) && Unreasoned(model, reason, -1)
      ensures |clauses| == |old(clauses)|
      ensures Books(problem, units, cert, Snapshot()) && LearnedOk(Snapshot(), learned, |problem|)
      ensures confl == None ==> Sound(Snapshot(), nbVars, wlist, wlistBin, Elems(trail), lvl)
      ensures confl.Some? ==> Sound(Snapshot(), nbVars, wlist, wlistBin, Elems(old(trail)), lvl)
      ensures confl.Some? ==> ConflictAt(Snapshot(), confl.value, lvl)
      ensures forall entries :: Queued(old(model), entries, lit.v) ==> Queued(model, entries, -1)
    {
      hide Sound, Ready, Books, LearnedOk, Grown, ConflictAt, Unreasoned, Unified, Queued, Bags, Formula, CoreOk, TrailOk,
        Extends, True, Level;
      ghost var s0, wl0 := Snapshot(), wlist;
      ReadyFacts(s0, nbVars, wlist, wlistBin, lit, lvl);
      Unify(s0, nbVars, wlist, wlistBin, lit, lvl);
      BooksPushed(problem, units, cert, s0, nbVars, lit, lvl);
      model := model[lit.v := SignedLevel(lit, lvl)];
      trail := trail + [lit];
      ghost var s1 := Snapshot();
      assert s1 == Pushed(s0, lit, lvl, s0.reason[lit.v]);
      assert trail[..|trail| - 1] == s0.trail;
      SoundTrail(s1, nbVars, wlist, wlistBin, Elems(s0.trail), lvl);
      confl := Propagate(|trail| - 1, lvl);
      ghost var s2 := Snapshot();
      BooksGrown(problem, units, cert, s1, s2, lvl);
      UnifiedDone(s0, s1, s2, lit, lvl, learned, |problem|);
    }

    // Writes a learned literal to the certificate; the search binds it right afterwards.
    method AddLearnedUnit(unit: Lit)
      modifies this`cert
      ensures cert == old(cert) + [[unit]]
    {
      cert := cert + [[unit]];
    }

    // Records that the problem has no model; the empty clause ends the certificate.
    method SetUnsat() returns (r: Status)
      requires |model| == nbVars && Books(problem, units, cert, Snapshot())
      requires Rup(Bags(Formula(problem, units) + cert), multiset{}) && CertShape(cert, nbVars)
      modifies this`status, this`cert
      ensures r == IsUnsat && status == IsUnsat && cert == old(cert) + [[]]
      ensures CertOk(Formula(problem, units), cert) && CertShape(cert, nbVars)
    {
      hide Rup, Bags, Formula;
      ShapeNext(cert, nbVars, []);
      var empty: Clause := [];
      assert multiset(empty) == multiset{};
      BooksCertify(problem, units, cert, Snapshot(), empty);
      cert := cert + [[]];
      status := IsUnsat;
      r := IsUnsat;
    }

    // The state in which propagating lit0 at level lvl, from the snapshot s0, has met a conflict.
    ghost predicate InConflict(s0: Core, lit0: Lit, lvl: nat)
      reads this, queue
    {
      Kept() && Tallied(1) && Unified(s0, Snapshot(), lit0, lvl) && Unreasoned(model, reason, -1)
      && Sound(Snapshot(), nbVars, wlist, wlistBin, Elems(s0.trail), lvl)
      && Queued(model, queue.Entries(), -1)
      && TrailOk(s0.model, s0.trail) && Contiguous(s0, lvl) && |s0.model| == nbVars
    }

    // The state in which propagating lit0 at level lvl, from the snapshot s0, has met none.
    ghost predicate Calm(s0: Core, lit0: Lit, lvl: nat)
      reads this, queue
    {
      Kept() && Tallied(0) && Unified(s0, Snapshot(), lit0, lvl) && Unreasoned(model, reason, -1)
      && Sound(Snapshot(), nbVars, wlist, wlistBin, Elems(trail), lvl) && lvl >= 1
      && Queued(model, queue.Entries(), -1) && TrailOk(s0.model, s0.trail) && Contiguous(s0, lvl)
    }

    // Adds the learned clause, with all it needs to be live.
    method RecordClause(c: Clause, lbd: nat, lvl: nat, ghost s0: Core, ghost lit0: Lit) returns (id: nat)
      requires InConflict(s0, lit0, lvl) && Asserting(Snapshot(), lvl, c) && |c| >= 2 && lbd <= |c|
      requires Rup(Bags(Formula(problem, units) + cert), multiset(c))
      modifies this`clauses, this`info, this`live, this`learned, this`wlist, this`wlistBin, this`cert
      ensures Kept() && Tallied(0) && SoundFor(Snapshot(), nbVars, wlist, wlistBin, Elems(s0.trail), lvl, old(live))
      ensures id == |old(clauses)| && Snapshot() == WithClause(old(Snapshot()), c, ClauseInfo(true, false, lbd))
      ensures cert == old(cert) + [c] && learned == old(learned) + [id] && id !in old(live)
    {
      hide Rup, Bags, Formula, Books, LearnedOk, Sound, SoundFor, Unreasoned, Queued, Unified, TrailOk, Contiguous, Asserting,
        CoreOk, Level, True, False, LevelsUpTo, ClauseOk, CertShape, Tally, Elems;
      ghost var s1 := Snapshot();
      SoundTrail(s1, nbVars, wlist, wlistBin, Elems(s0.trail), lvl);
      LearnedShape(s1, nbVars, lvl, c);
      LearnedTally(s0, s1, nbVars, wlist, wlistBin, lit0, lvl, learned, |problem|, tab, c, ClauseInfo(true, false, lbd));
      BooksCertify(problem, units, cert, s1, c);
      ClauseShape(c, nbVars);
      ShapeNext(cert, nbVars, c);
      BooksAdd(problem, units, cert + [c], s1, c, ClauseInfo(true, false, lbd));
      LearnedMore(s1, learned, |problem|, c, lbd);
      id := AddLearned(c, lbd, Elems(s0.trail), lvl);
    }

    // Adds the learned clause, backjumps to the level of its second literal and makes its first literal pending.
    method TakeClause(c: Clause, lbd: nat, lvl: nat, ghost s0: Core, ghost lit0: Lit) returns (lit: Lit, btLvl: nat)
      requires InConflict(s0, lit0, lvl) && Asserting(Snapshot(), lvl, c) && |c| >= 2 && lbd <= |c|
      requires Rup(Bags(Formula(problem, units) + cert), multiset(c))
      modifies this`clauses, this`info, this`live, this`model, this`trail, this`reason, this`wlistBin, this`wlist
      modifies this`learned, this`polarity, this`cert, queue`content, queue`indices
      ensures Pending(lit, btLvl) && lit == c[0] && 1 <= btLvl < lvl
      ensures Reached(nbVars, s0, lvl) < Reached(nbVars, Snapshot(), btLvl)
      ensures cert == old(cert) + [c]
    {
      hide Rup, Bags, Formula, Books, LearnedOk, Sound, SoundFor, Unreasoned, Queued, Unified, TrailOk, Contiguous, Asserting,
        CoreOk, Ready, Cut, Level, True, False, LevelsUpTo, Reached, ClauseOk, CertShape, Tally, Elems;
      ghost var s1 := Snapshot();
      SoundTrail(s1, nbVars, wlist, wlistBin, Elems(s0.trail), lvl);
      LearnedShape(s1, nbVars, lvl, c);
      var id := RecordClause(c, lbd, lvl, s0, lit0);
      ghost var s2 := Snapshot();
      btLvl, lit := Level(model, c[1].v), c[0];
      SplitDone(s0, s1, lit0, lvl, c, nbVars);
      CleanupBindings(btLvl, Elems(s0.trail), lvl, s1.live);
      ghost var s3, i := Snapshot(), |trail|;
      LearnedUnit(s1, s2, s3, nbVars, c, lvl, i);
      CutFacts(s1, s2, s3, nbVars, problem, units, cert, learned, i, btLvl);
      BackjumpAdded(s0, s1, s2, s3, lit0, lvl, i, btLvl);
      ReadyLearned(s3, nbVars, wlist, wlistBin, c, id, btLvl, s1.live);
      BooksAsserted(problem, units, cert, s3, lit, id);
      reason := reason[lit.v := Some(id)];
      info := info[id := info[id].(locked := true)];
      assert Snapshot() == Asserted(s3, lit, id);
      AssertedKeeps(s3, nbVars, lit, id, learned, |problem|, btLvl);
      CutTally(s1, s2, s3, Snapshot(), i, btLvl, learned, nbVars, tab, 0);
      QueuedPending(model, queue.Entries(), lit.v);
    }

    // Undoes all decisions and certifies the learned literal, which is then free and to be bound at level 1.
    method CertifyUnit(unit: Lit, lvl: nat, ghost s0: Core, ghost lit0: Lit)
      requires InConflict(s0, lit0, lvl) && Asserting(Snapshot(), lvl, [unit]) && lvl >= 2
      requires Rup(Bags(Formula(problem, units) + cert), multiset([unit]))
      modifies this`info, this`model, this`trail, this`reason, this`polarity, this`cert, queue`content, queue`indices
      ensures Kept() && Cut(old(Snapshot()), Snapshot(), |trail|, 1) && Unreasoned(model, reason, -1)
      ensures unit.v < nbVars && Ready(Snapshot(), nbVars, wlist, wlistBin, unit, 1) && Queued(model, queue.Entries(), -1)
      ensures multiset{unit} in Bags(Formula(problem, units) + cert)
      ensures Sound(Snapshot(), nbVars, wlist, wlistBin, Elems(trail), 1) && cert == old(cert) + [[unit]]
      ensures Tallied(1)
    {
      hide Rup, Bags, Formula, Books, LearnedOk, Sound, SoundFor, Unreasoned, Queued, Unified, TrailOk, Contiguous, Asserting,
        CoreOk, Ready, Cut, Level, True, False, LevelsUpTo, CertOk, Known, CertShape, Tally;
      ghost var s1 := Snapshot();
      SoundTrail(s1, nbVars, wlist, wlistBin, Elems(s0.trail), lvl);
      SplitTop(s0, s1, lit0, lvl);
      SoundIs(s1, nbVars, wlist, wlistBin, Elems(s0.trail), lvl);
      CleanupBindings(1, Elems(s0.trail), lvl, live);
      ghost var s2, i := Snapshot(), |trail|;
      UnitFree(s1, s2, nbVars, lvl, unit, i);
      CutTally(s1, s1, s2, s2, i, 1, learned, nbVars, tab, 1);
      CutBooks(s1, s2, nbVars, problem, units, cert, learned, i, 1);
      BooksCertify(problem, units, cert, s2, [unit]);
      ShapeNext(cert, nbVars, [unit]);
      assert multiset([unit]) == multiset{unit};
      AddLearnedUnit(unit);
      SoundIs(s2, nbVars, wlist, wlistBin, Elems(trail), 1);
      SoundTrail(s2, nbVars, wlist, wlistBin, Elems(trail), 1);
      ReadyUnit(s2, nbVars, wlist, wlistBin, unit);
    }

    // Binds a learned literal at the top level and picks the next decision.
    method TakeUnit(unit: Lit, lvl: nat, ghost s0: Core, ghost lit0: Lit) returns (unsat: bool, lit: Option<Lit>)
      requires InConflict(s0, lit0, lvl) && Asserting(Snapshot(), lvl, [unit]) && lvl >= 2
      requires Rup(Bags(Formula(problem, units) + cert), multiset([unit]))
      modifies this`clauses, this`info, this`model, this`trail, this`reason, this`wlist
      modifies this`polarity, this`cert, this`status, this`tab, queue`content, queue`indices
      ensures tab == old(tab).(units := old(tab).units + 1) && (!unsat ==> cert == old(cert) + [[unit]])
      ensures unsat ==> CertOk(Formula(problem, units), cert) && [] in cert && CertShape(cert, nbVars)
      ensures !unsat && lit.Some? ==> Pending(lit.value, 2) && Reached(nbVars, s0, lvl) < Reached(nbVars, Snapshot(), 2)
      ensures !unsat && lit == None ==> Complete(2)
    {
      hide Rup, Bags, Formula, Books, LearnedOk, Sound, SoundFor, Unreasoned, Queued, Unified, TrailOk, Contiguous, Asserting,
        CoreOk, Ready, Cut, Level, True, False, LevelsUpTo, Reached, ConflictAt, CertOk, Known, CertShape, Tally;
      ghost var s1, t1 := Snapshot(), tab;
      SoundTrail(s1, nbVars, wlist, wlistBin, Elems(s0.trail), lvl);
      CertifyUnit(unit, lvl, s0, lit0);
      tab := tab.(units := tab.units + 1);
      ghost var s2 := Snapshot();
      var confl := UnifyLiteral(unit, 1);
      ghost var s3 := Snapshot();
      TallyUnit(s2, s3, unit, learned, nbVars, t1);
      if confl.Some? {
        SoundTrail(s3, nbVars, wlist, wlistBin, Elems(s2.trail), 1);
        TopRefuted(s3, nbVars, wlist, wlistBin, Elems(s2.trail), problem, units, cert, confl.value);
        var r := SetUnsat();
        return true, None;
      }
      UnitProgress(s0, s1, s2, s3, lit0, lvl, |s2.trail|, unit);
      lit := NextDecision();
      return false, lit;
    }

    // The next decision, at level 2, once a learned literal has been propagated at the top level.
    method NextDecision() returns (lit: Option<Lit>)
      requires Kept() && Sound(Snapshot(), nbVars, wlist, wlistBin, Elems(trail), 1) && Unreasoned(model, reason, -1)
      requires Contiguous(Snapshot(), 2) && Tallied(0)
      modifies queue`content, queue`indices
      ensures lit.Some? ==> Pending(lit.value, 2)
      ensures lit == None ==> Complete(2)
    {
      hide Books, LearnedOk, Sound, SoundFor, Unreasoned, Queued, Contiguous, Ready, Elems, CertShape, Tally;
      RebuildOrderHeap();
      lit := ChooseLit();
      SoundHigher(Snapshot(), nbVars, wlist, wlistBin, Elems(trail), 1, 2);
      if lit.Some? {
        ReadyDecision(Snapshot(), nbVars, wlist, wlistBin, lit.value, 1);
      }
    }

    // Binds the pending literal and searches until an answer is found or a restart is due. A literal of None stands for
    // -1 in the source.
    method PropagateAndSearch(lit0: Option<Lit>, lvl0: nat) returns (r: Status)
      requires lit0.Some? ==> Pending(lit0.value, lvl0)
      requires lit0 == None ==> Complete(lvl0)
      requires stats.Valid()
      modifies this`clauses, this`info, this`live, this`model, this`trail, this`reason, this`wlistBin, this`wlist
      modifies this`learned, this`polarity, this`cert, this`status, this`varInc, this`tab, queue, stats
      ensures stats.Valid() && tab.conflicts >= old(tab.conflicts)
      ensures r == IsSat ==> Solved()
      ensures r == IsUnsat ==> Refuted()
      ensures r == Indet ==> Resting() && stats.since == |stats.lbds|
      ensures r == Indet ==> exists start :: old(stats.since) <= start && L.Fires(stats.lbds, start)
      ensures tab.conflicts == old(tab.conflicts) ==> stats.lbds == old(stats.lbds)
      ensures tab.conflicts == old(tab.conflicts) && lit0.Some? ==> (r == Indet <==> L.Fires(stats.lbds, old(stats.since)))
    {
      hide Pending, Complete, Calm, InConflict, Resting, Solved, Refuted, ConflictAt, Limit, Reached, L.Fires, L.Postpones, L.Stands,
        FromUip, LevelsIn;
      var lit, lvl := lit0, lvl0;
      ghost var first := true;
      while lit.Some?
        invariant lit.Some? ==> Pending(lit.value, lvl)
        invariant lit == None ==> Complete(lvl)
        invariant stats.Valid() && tab.conflicts >= old(tab.conflicts) && stats.since >= old(stats.since)
        invariant first ==> lit == lit0 && tab.conflicts == old(tab.conflicts)
        invariant tab.conflicts == old(tab.conflicts) ==> stats.lbds == old(stats.lbds) && stats.since == old(stats.since)
        invariant tab.conflicts == old(tab.conflicts) && !first ==> !L.Fires(stats.lbds, stats.since)
        decreases if lit.Some? then 1 + Limit(nbVars) - Reached(nbVars, Snapshot(), lvl) else 0
      {
        ghost var s0 := Snapshot();
        first := false;
        PendingBounded(lit.value, lvl);
        var confl := BindNext(lit.value, lvl);
        if confl == None {
          var restart;
          restart, lit := Proceed(lvl, s0, lit.value);
          if restart {
            return Indet;
          }
          lvl := lvl + 1;
        } else {
          var unsat;
          unsat, lit, lvl := ResolveConflict(confl.value, lvl, s0, lit.value);
          if unsat {
            return IsUnsat;
          }
        }
      }
      CompleteSolved(lvl);
      return IsSat;
    }

    lemma PendingBounded(lit: Lit, lvl: nat)
      requires Pending(lit, lvl)
      ensures Reached(nbVars, Snapshot(), lvl) <= Limit(nbVars)
    {
      hide Reached, Limit, Ready;
      PendingFacts(Snapshot(), nbVars, wlist, wlistBin, lit, lvl);
    }

    lemma CompleteSolved(lvl: nat)
      requires Complete(lvl)
      ensures Solved()
    {
      hide Books, Sound, Elems, Bags, Formula, Models;
      TotalSatisfies(problem, units, cert, Snapshot(), nbVars, wlist, wlistBin, lvl);
    }

    // Binds the pending literal, propagates it and counts the conflict, if there is one.
    method BindNext(lit: Lit, lvl: nat) returns (confl: Option<nat>)
      requires Pending(lit, lvl) && stats.Valid()
      modifies this`clauses, this`info, this`model, this`trail, this`reason, this`wlist, this`tab, stats
      ensures stats.Valid() && stats.lbds == old(stats.lbds)
      ensures confl == None ==> Calm(old(Snapshot()), lit, lvl) && tab == old(tab) && stats.since == old(stats.since)
      ensures confl.Some? ==> InConflict(old(Snapshot()), lit, lvl) && ConflictAt(Snapshot(), confl.value, lvl)
      ensures confl.Some? ==> tab == old(tab).(conflicts := old(tab).conflicts + 1) && stats.trails == old(stats.trails) + [|trail|]
      ensures confl.Some? ==> stats.since == if L.Postpones(stats.trails, stats.lbds, old(stats.since)) then |stats.lbds| else old(stats.since)
    {
      hide Bags, Formula, Books, LearnedOk, Sound, SoundFor, Unreasoned, Queued, Unified, TrailOk, Contiguous,
        CoreOk, Ready, ConflictAt, Elems, CertShape, Tally, L.Postpones, L.Stands;
      ghost var s0 := Snapshot();
      PendingFacts(s0, nbVars, wlist, wlistBin, lit, lvl);
      confl := UnifyLiteral(lit, lvl);
      TallyUnified(s0, Snapshot(), lit, lvl, learned, nbVars, tab, 0);
      if confl.Some? {
        TallyConflict(Snapshot(), learned, nbVars, tab);
        tab := tab.(conflicts := tab.conflicts + 1);
        stats.AddConflict(|trail|);
      }
    }

    // Everything is propagated at level lvl: restarts if the recent block distances call for it, and only then.
    method Proceed(lvl: nat, ghost s0: Core, ghost lit0: Lit) returns (restart: bool, lit: Option<Lit>)
      requires Calm(s0, lit0, lvl) && stats.Valid()
      modifies this`model, this`trail, this`reason, this`info, this`polarity, this`live, this`wlist, this`learned, this`tab
      modifies queue`content, queue`indices, stats`lbdData, stats`since
      ensures restart <==> old(L.Fires(stats.lbds, stats.since))
      ensures stats.Valid() && stats.since == if restart then |stats.lbds| else old(stats.since)
      ensures restart ==> Resting() && tab == old(tab) && learned == old(learned) && live == old(live)
      ensures !restart && lit.Some? ==> Pending(lit.value, lvl + 1)
      ensures !restart && lit.Some? ==> Reached(nbVars, s0, lvl) < Reached(nbVars, Snapshot(), lvl + 1)
      ensures !restart && lit == None ==> Complete(lvl + 1)
      ensures !restart ==> trail == old(trail) && tab.conflicts == old(tab).conflicts
    {
      hide Books, LearnedOk, Sound, SoundFor, Unreasoned, Queued, Unified, Contiguous, Ready, Reached, TrailOk, Elems, CertShape,
        Tally, L.Fires, L.Stands;
      stats.FiresIs();
      restart := stats.MustRestart();
      if restart {
        stats.Clear();
        Restart(lvl);
        return true, None;
      }
      lit := Descend(lvl, s0, lit0);
    }

    // The bindings are total and satisfy the problem.
    ghost predicate Solved()
      reads this
    {
      |model| == nbVars && (forall v :: 0 <= v < nbVars ==> model[v] != 0)
      && Models(AssignmentOf(model), Bags(Formula(problem, units)))
    }

    // The problem has no model, and the certificate written proves it.
    ghost predicate Refuted()
      reads this
    {
      Unsatisfiable(Bags(Formula(problem, units))) && CertOk(Formula(problem, units), cert) && [] in cert
      && CertShape(cert, nbVars)
    }

    // Everything is propagated at level lvl; back to the top level.
    method Restart(lvl: nat)
      requires Kept() && Sound(Snapshot(), nbVars, wlist, wlistBin, Elems(trail), lvl) && Unreasoned(model, reason, -1)
      requires Queued(model, queue.Entries(), -1) && Tallied(0)
      modifies this`model, this`trail, this`reason, this`info, this`polarity, queue`content, queue`indices
      ensures Resting()
    {
      hide Books, LearnedOk, Sound, SoundFor, Unreasoned, Queued, CoreOk, Cut, TrailOk, CertShape, Tally;
      ghost var s1 := Snapshot();
      SoundTrail(s1, nbVars, wlist, wlistBin, Elems(trail), lvl);
      SoundIs(s1, nbVars, wlist, wlistBin, Elems(trail), lvl);
      CleanupBindings(1, Elems(trail), lvl, live);
      SoundIs(Snapshot(), nbVars, wlist, wlistBin, Elems(trail), 1);
      CutBooks(s1, Snapshot(), nbVars, problem, units, cert, learned, |trail|, 1);
      CutTally(s1, s1, Snapshot(), Snapshot(), |trail|, 1, learned, nbVars, tab, 0);
    }

    // Everything is propagated at level lvl: deletes learned clauses if that is due, then decides one level deeper.
    method Descend(lvl: nat, ghost s0: Core, ghost lit0: Lit) returns (lit: Option<Lit>)
      requires Calm(s0, lit0, lvl)
      modifies this`live, this`wlist, this`learned, this`tab, queue`content, queue`indices
      ensures lit.Some? ==> Pending(lit.value, lvl + 1)
      ensures lit.Some? ==> Reached(nbVars, s0, lvl) < Reached(nbVars, Snapshot(), lvl + 1)
      ensures lit == None ==> Complete(lvl + 1)
      ensures tab.conflicts == old(tab).conflicts
      ensures !Due(old(tab)) || old(learned) == [] ==> learned == old(learned) && live == old(live)
      ensures Due(old(tab)) && old(learned) != [] ==> Cleaned(old(Snapshot()), Snapshot(), old(learned), learned, old(tab), tab)
    {
      hide Books, LearnedOk, Sound, SoundFor, Unreasoned, Queued, Unified, Contiguous, Ready, Reached, TrailOk, Elems, CertShape,
        Tally, Doomed, Pruned, Reduced, SortedByLbd, AfterReduction, Postponed;
      ghost var s1 := Snapshot();
      DeeperProgress(nbVars, s0, s1, lit0, lvl);
      Bounds(s1, learned, nbVars, tab, 0);
      if tab.conflicts >= tab.idxReduce * tab.nbMax {
        MakeRoom(lvl);
      }
      ghost var s2 := Snapshot();
      SameBindings(s1, s2, nbVars, lvl + 1);
      SoundHigher(s2, nbVars, wlist, wlistBin, Elems(trail), lvl, lvl + 1);
      lit := ChooseLit();
      if lit.Some? {
        ReadyDecision(s2, nbVars, wlist, wlistBin, lit.value, lvl);
      }
    }

    // Deletes learned clauses, which are due for it, and puts the next reduction off.
    method MakeRoom(lvl: nat)
      requires Kept() && Tallied(0) && Sound(Snapshot(), nbVars, wlist, wlistBin, Elems(trail), lvl) && Due(tab)
      modifies this`live, this`wlist, this`learned, this`tab
      ensures Kept() && Tallied(0) && Sound(Snapshot(), nbVars, wlist, wlistBin, Elems(trail), lvl)
      ensures model == old(model) && tab.conflicts == old(tab).conflicts
      ensures old(learned) == [] ==> learned == old(learned) && live == old(live) && wlist == old(wlist) && tab == old(tab)
      ensures old(learned) != [] ==> Cleaned(old(Snapshot()), Snapshot(), old(learned), learned, old(tab), tab)
    {
      hide Books, LearnedOk, Sound, Elems, CertShape, Tally, Doomed, Pruned, Reduced, SortedByLbd, Postponed;
      ghost var s1, learned1, t1 := Snapshot(), learned, tab;
      Bounds(s1, learned, nbVars, tab, 0);
      if |learned| > 0 {
        tab := tab.(idxReduce := tab.conflicts / tab.nbMax + 1);
        LearnedApart(s1, learned, |problem|);
        var order := SortLearned();
        ReduceLearned(order, Elems(trail), lvl);
        tab := tab.(nbMax := tab.nbMax + IncrNbMaxClauses, reductions := tab.reductions + 1);
        SoundTrail(s1, nbVars, old(wlist), wlistBin, Elems(trail), lvl);
        TallyReduce(s1, Snapshot(), learned1, learned, order, |problem|, nbVars, t1);
        assert Cleaned(s1, Snapshot(), learned1, learned, t1, tab);
      }
    }

    // Stands for sort.Sort on the learned clauses, by decreasing block distance.
    method SortLearned() returns (order: seq<nat>)
      requires forall c :: c in learned ==> c < |info|
      ensures multiset(order) == multiset(learned) && SortedByLbd(info, order)
    {
      hide SortedByLbd;
      order := [];
      assert learned[..0] == [];
      NoneSorted(info);
      for i := 0 to |learned|
        invariant multiset(order) == multiset(learned[..i]) && SortedByLbd(info, order)
      {
        assert learned[i] in learned && learned[..i + 1] == learned[..i] + [learned[i]];
        order := InsertByLbd(order, learned[i]);
      }
      assert learned[..|learned|] == learned;
    }

    method InsertByLbd(order: seq<nat>, c: nat) returns (r: seq<nat>)
      requires SortedByLbd(info, order) && c < |info|
      ensures multiset(r) == multiset(order) + multiset{c} && SortedByLbd(info, r)
    {
      hide SortedByLbd;
      var k := 0;
      LbdsOf(info, order);
      while k < |order| && info[order[k]].lbd >= info[c].lbd
        invariant 0 <= k <= |order|
        invariant forall j :: 0 <= j < k ==> LbdOf(info, order[j]) >= info[c].lbd
      {
        k := k + 1;
      }
      InsertSortedLbd(info, order, c, k);
      r := order[..k] + [c] + order[k..];
    }

    // A literal is learned: it is bound at the top level, unless it is false there.
    method ResolveUnit(unit: Lit, confl: nat, lvl: nat, ghost s0: Core, ghost lit0: Lit) returns (unsat: bool, lit: Option<Lit>)
      requires InConflict(s0, lit0, lvl) && ConflictAt(Snapshot(), confl, lvl) && stats.Valid()
      requires Asserting(Snapshot(), lvl, [unit]) && Rup(Bags(Formula(problem, units) + cert), multiset([unit]))
      modifies this`clauses, this`info, this`model, this`trail, this`reason, this`wlist
      modifies this`polarity, this`cert, this`status, this`tab, queue`content, queue`indices, stats`lbdData, stats`lbds
      ensures unsat ==> Refuted()
      ensures stats.Valid() && tab.conflicts == old(tab.conflicts)
      ensures !unsat ==> lvl >= 2 && cert == old(cert) + [[unit]] && stats.lbds == old(stats.lbds) + [1]
      ensures !unsat && lit.Some? ==> Pending(lit.value, 2) && Reached(nbVars, s0, lvl) < Reached(nbVars, Snapshot(), 2)
      ensures !unsat && lit == None ==> Complete(2)
    {
      hide Bags, Formula, Books, LearnedOk, Sound, SoundFor, Unreasoned, Queued, Unified, TrailOk, Contiguous, Asserting,
        CoreOk, Ready, Cut, Level, False, LevelsUpTo, Reached, ConflictAt, CertOk, Known, Rup, Unsatisfiable, Elems, CertShape,
        Tally, L.Stands;
      ghost var s1 := Snapshot();
      SoundTrail(s1, nbVars, wlist, wlistBin, Elems(s0.trail), lvl);
      UnitLevel(s1, nbVars, lvl, unit);
      if Level(model, unit.v) == 1 && LitFalse(unit) {  // top-level conflict
        TopRefuted(s1, nbVars, wlist, wlistBin, Elems(s0.trail), problem, units, cert, confl);
        var r := SetUnsat();
        CertRefutes(Formula(problem, units), cert);
        return true, None;
      }
      stats.AddLbd(1);
      unsat, lit := TakeUnit(unit, lvl, s0, lit0);
      if unsat {
        CertRefutes(Formula(problem, units), cert);
      }
    }

    // Learns from a conflict at level lvl and prepares the next literal, or finds the problem unsatisfiable.
    method ResolveConflict(confl: nat, lvl: nat, ghost s0: Core, ghost lit0: Lit)
      returns (unsat: bool, lit: Option<Lit>, nextLvl: nat)
      requires InConflict(s0, lit0, lvl) && ConflictAt(Snapshot(), confl, lvl) && stats.Valid()
      modifies this`clauses, this`info, this`live, this`model, this`trail, this`reason, this`wlistBin, this`wlist
      modifies this`learned, this`polarity, this`cert, this`status, this`varInc, this`tab, queue, stats`lbdData, stats`lbds
      ensures unsat ==> Refuted()
      ensures stats.Valid() && tab.conflicts == old(tab.conflicts)
      ensures !unsat ==> |cert| == |old(cert)| + 1 && cert[..|old(cert)|] == old(cert)
      ensures !unsat ==> confl < |old(clauses)| && FromUip(old(Snapshot()), old(clauses)[confl], lvl, cert[|old(cert)|])
      ensures !unsat ==> stats.lbds == old(stats.lbds) + [|LevelsIn(old(model), cert[|old(cert)|])|]
      ensures !unsat && lit.Some? ==> Pending(lit.value, nextLvl)
      ensures !unsat && lit.Some? ==> Reached(nbVars, s0, lvl) < Reached(nbVars, Snapshot(), nextLvl)
      ensures !unsat && lit == None ==> Complete(nextLvl)
    {
      hide Bags, Formula, Books, LearnedOk, Sound, SoundFor, Unreasoned, Queued, Unified, TrailOk, Contiguous, Asserting,
        CoreOk, Ready, Cut, Level, False, LevelsUpTo, Reached, ConflictAt, CertOk, Known, Rup, Unsatisfiable, Elems, CertShape,
        Tally, FromUip, LevelsIn, L.Stands;
      ghost var s1 := Snapshot();
      SoundTrail(s1, nbVars, wlist, wlistBin, Elems(s0.trail), lvl);
      var learnt := LearnClause(confl, lvl);
      KnownBags(problem, units, cert, s1);
      unsat := false;
      match learnt {
        case LearntUnit(unit) =>
          FirstLevel(model, [unit]);
          assert [unit][..1] == [unit];
          unsat, lit := ResolveUnit(unit, confl, lvl, s0, lit0);
          nextLvl := 2;
        case LearntClause(lits, lbd) =>
          var l;
          stats.AddLbd(lbd);
          l, nextLvl := TakeClause(lits, lbd, lvl, s0, lit0);
          lit := Some(l);
      }
    }

    // Searches until a restart is needed.
    method Search()
      requires Resting() && stats.Valid()
      modifies this`clauses, this`info, this`live, this`model, this`trail, this`reason, this`wlistBin, this`wlist
      modifies this`learned, this`polarity, this`cert, this`status, this`varInc, this`tab, queue, stats
      ensures stats.Valid()
      ensures status == IsSat ==> Solved()
      ensures status == IsUnsat ==> Refuted()
      ensures status == Indet ==> Resting() && stats.since == |stats.lbds|
      ensures status == Indet ==> exists start :: old(stats.since) <= start && L.Fires(stats.lbds, start)
      ensures tab.conflicts == old(tab.conflicts) ==> stats.lbds == old(stats.lbds)
      ensures tab.conflicts >= old(tab.conflicts)
    {
      hide Bags, Formula, Books, LearnedOk, Sound, Unreasoned, Queued, Contiguous, Ready, CertOk, Models, Unsatisfiable, CertShape,
        Tally, L.Fires, L.Stands;
      var lit := ChooseLit();
      SoundHigher(Snapshot(), nbVars, wlist, wlistBin, Elems(trail), 1, 2);
      if lit.Some? {
        ReadyDecision(Snapshot(), nbVars, wlist, wlistBin, lit.value, 1);
        TwoContiguous(Snapshot());
      }
      var r := PropagateAndSearch(lit, 2);
      status := r;
    }

    // Restarts the search until it answers, which it does: restarts take conflicts, and there are only so many.
    method Solve() returns (r: Status)
      requires status != IsUnsat ==> Resting() && stats.Valid()
      requires status == IsUnsat ==> Refuted()
      modifies this`clauses, this`info, this`live, this`model, this`trail, this`reason, this`wlistBin, this`wlist
      modifies this`learned, this`polarity, this`cert, this`status, this`varInc, this`tab, queue, stats
      ensures r == status && r != Indet
      ensures r == IsSat ==> Solved()
      ensures r == IsUnsat ==> Refuted()
    {
      hide Bags, Formula, Books, LearnedOk, Sound, Unreasoned, Queued, CertOk, Models, Unsatisfiable, CertShape, Tally, MaxConflicts,
        L.Stands;
      if status == IsUnsat {
        return status;
      }
      status := Indet;
      ConflictsBounded();
      while status == Indet
        invariant status == IsSat ==> Solved()
        invariant status == IsUnsat ==> Refuted()
        invariant status == Indet ==> Resting() && stats.Valid() && tab.conflicts <= MaxConflicts(nbVars)
        decreases status == Indet, MaxConflicts(nbVars) - tab.conflicts, |stats.lbds| - stats.since
      {
        Search();
        if status == Indet {
          RebuildOrderHeap();
          ConflictsBounded();
        }
      }
      r := status;
    }

    lemma ConflictsBounded()
      requires Resting()
      ensures tab.conflicts <= MaxConflicts(nbVars)
    {
      hide Books, LearnedOk, Sound, CoreOk, Tally, MaxConflicts, TrailOk;
      SoundTrail(Snapshot(), nbVars, wlist, wlistBin, Elems(trail), 1);
      TallyBound(Snapshot(), learned, |problem|, nbVars, tab, 0);
    }
  }
}
