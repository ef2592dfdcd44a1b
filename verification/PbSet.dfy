// Conflict analysis by cutting planes, in place on an array of weights (solver/learn_pb.go).
module PbSet {
  import opened Logic
  import opened Bindings
  import opened Linear
  import opened CuttingPlanes
  import opened Resolution
  import opened PbClause

  // A linear constraint as the weight of each variable, negative when it bears on the negated literal.
  class PbSet {
    const weights: array<int>
    var card: int

    // Solver.pbSet: a cleaned buffer filled with the signed weights of a constraint.
    constructor (c: Constr, nbVars: nat)
      requires ConstrOk(c, nbVars)
      ensures fresh(weights) && weights[..] == Dense(c.terms, nbVars) && card == c.card
    {
      weights := new int[nbVars](_ => 0);
      card := c.card;
      new;
      for i := 0 to |c.terms|
        invariant weights[..] == Dense(c.terms[..i], nbVars)
        invariant fresh(weights) && card == c.card
      {
        var t := c.terms[i];
        assert c.terms[..i + 1][..i] == c.terms[..i];
        weights[t.l.v] := if t.l.pos then t.w else -t.w;
      }
      assert c.terms[..|c.terms|] == c.terms;
    }

    predicate FalsifiesLit(l: Lit)
      reads weights
      ensures FalsifiesLit(l) <==> Falsifies(weights[..], l)
    {
      l.v < weights.Length && weights[l.v] != 0 && (weights[l.v] < 0) == l.pos
    }

    method Clash(pb2: PbSet)
      requires weights != pb2.weights && weights.Length == pb2.weights.Length
      modifies this`card, weights
      ensures weights[..] == Added(old(weights[..]), pb2.weights[..])
      ensures card == old(card) + pb2.card - Cancelled(old(weights[..]), pb2.weights[..])
    {
      hide Abs, Min;
      ghost var ws1, ws2 := weights[..], pb2.weights[..];
      var gone := 0;
      for i := 0 to weights.Length
        invariant forall k :: 0 <= k < weights.Length ==> weights[k] == ws1[k] + if k < i then ws2[k] else 0
        invariant pb2.weights[..] == ws2 && card == old(card)
        invariant gone == Cancelled(ws1[..i], ws2[..i])
      {
        var w1, w2 := weights[i], pb2.weights[i];
        assert w1 == ws1[i] && w2 == ws2[i];
        assert ws1[..i + 1][..i] == ws1[..i] && ws2[..i + 1][..i] == ws2[..i];
        weights[i] := w1 + w2;
        if w1 * w2 < 0 {
          gone := gone + Min(Abs(w1), Abs(w2));
        }
      }
      assert ws1[..|ws1|] == ws1 && ws2[..|ws2|] == ws2;
      assert weights[..] == Added(ws1, ws2);
      card := card + pb2.card - gone;
    }

    method DivideBy(coeff: int)
      requires coeff > 0
      modifies this`card, weights
      ensures weights[..] == Divided(old(weights[..]), coeff) && card == DivCard(old(card), coeff)
    {
      hide Quot, Rem;
      ghost var ws := weights[..];
      for j := 0 to weights.Length
        invariant card == old(card)
        invariant forall k :: 0 <= k < weights.Length ==> weights[k] == if k < j then DivWeight(ws[k], coeff) else ws[k]
      {
        var wj := weights[j];
        assert wj == ws[j];
        if wj != 0 {
          if Rem(wj, coeff) == 0 {
            weights[j] := Quot(wj, coeff);
          } else if wj > 0 {
            weights[j] := Quot(wj, coeff) + 1;
          } else {
            weights[j] := Quot(wj, coeff) - 1;
          }
        }
      }
      if Rem(card, coeff) == 0 {
        card := Quot(card, coeff);
      } else {
        card := Quot(card, coeff) + 1;
      }
    }

    method RoundToOne(model: Model, locked: nat)
      requires locked < weights.Length == |model| && weights[locked] != 0
      modifies this`card, weights
      ensures weights[..] == Rounded(old(weights[..]), model, locked)
      ensures card == RoundedCard(old(weights[..]), old(card), model, locked)
    {
      ghost var ws := weights[..];
      var wi := Abs(weights[locked]);
      if wi == 1 {
        return;
      }
      var gone := 0;
      for j := 0 to weights.Length
        invariant forall k :: 0 <= k < weights.Length ==>
                    weights[k] == if k < j && Dropped(model, k, ws[k], wi) then 0 else ws[k]
        invariant gone == DroppedSum(ws[..j], model, wi) && card == old(card)
      {
        var wj, assign := weights[j], model[j];
        assert wj == ws[j] && ws[..j + 1][..j] == ws[..j];
        if wj != 0 && Rem(wj, wi) != 0 && (assign == 0 || (assign > 0) == (wj > 0)) {
          weights[j] := 0;
          gone := gone + Abs(wj);
        }
      }
      assert ws[..|ws|] == ws;
      card := card - gone;
      DivideBy(wi);
    }

    // slack at level lvl: what can be reached once the literals false at lvl or below are lost, less the degree.
    method SlackAt(model: Model, lvl: nat) returns (res: int)
      requires weights.Length == |model|
      ensures res == Slack(weights[..], card, UpTo(model, lvl))
    {
      res := -card;
      for i := 0 to weights.Length
        invariant res == Slack(weights[..i], card, UpTo(model, lvl))
      {
        assert weights[..i + 1][..i] == weights[..i];
        var w := weights[i];
        var l := Lit(i, w > 0);
        if w != 0 && (!False(model, l) || Level(model, i) > lvl) {
          res := res + Abs(w);
        }
      }
      assert weights[..weights.Length] == weights[..];
    }

    method OnlyFalsified(trail: seq<Lit>, model: Model, from: int, lvl: int) returns (only: Option<Lit>)
      requires -1 <= from < |trail|
      ensures only == Scan(Context(trail, model, []), weights[..], from, lvl, None)
    {
      only := None;
      var ptr := from;
      while ptr >= 0
        invariant -1 <= ptr <= from
        invariant Scan(Context(trail, model, []), weights[..], from, lvl, None)
               == Scan(Context(trail, model, []), weights[..], ptr, lvl, only)
      {
        var lit := trail[ptr];
        if Level(model, lit.v) != lvl {
          return;
        }
        if FalsifiesLit(lit) {
          if only.Some? {
            only := None;
            return;
          }
          only := Some(lit);
        }
        ptr := ptr - 1;
      }
    }

    method BacktrackLevel(model: Model, v: nat) returns (maxLvl: nat)
      requires v < weights.Length == |model|
      ensures BackLevel(weights[..], model, v, maxLvl)
      ensures maxLvl == 1 || exists u :: 0 <= u < |model| && u != v && weights[u] != 0 && Level(model, u) == maxLvl != Level(model, v)
    {
      var lvl := Level(model, v);
      maxLvl := 1;
      for i := 0 to weights.Length
        invariant maxLvl >= 1
        invariant forall u :: 0 <= u < i && u != v && weights[u] != 0 && Level(model, u) != lvl ==> Level(model, u) <= maxLvl
        invariant maxLvl == 1 || exists u :: 0 <= u < |model| && u != v && weights[u] != 0 && Level(model, u) == maxLvl != lvl
      {
        if weights[i] != 0 && i != v {
          var lvlI := Level(model, i);
          if lvlI > maxLvl && lvlI != lvl {
            maxLvl := lvlI;
          }
        }
      }
    }

    // clause: back to weighted literals, sorted by weight.
    method ToClause() returns (c: Constr)
      requires card >= 1
      ensures c.card == card && Sorted(c)
      ensures Renders(c, weights[..])
    {
      var ts := [];
      for i := 0 to weights.Length
        invariant ts == Terms(weights[..i])
      {
        assert weights[..i + 1][..i] == weights[..i];
        var w := weights[i];
        if w != 0 {
          ts := ts + [LinearTerm(i, w)];
        }
      }
      assert weights[..weights.Length] == weights[..];
      c := NewPBClause(ts, card);
      ghost var ws := weights[..];
      TermsMean(ws, c.terms);
    }
  }

  function LinearTerm(v: nat, w: int): Linear.Term { Linear.Term(Lit(v, w > 0), Abs(w)) }

  function Terms(ws: seq<int>): seq<Linear.Term>
  {
    if ws == [] then []
    else
      var n := |ws| - 1;
      Terms(ws[..n]) + if ws[n] == 0 then [] else [LinearTerm(n, ws[n])]
  }

  lemma {:induction false} TermsSums(ws: seq<int>, a: Assignment, m: Model)
    ensures TrueSum(Terms(ws), a) == Value(ws, a) && OpenSum(Terms(ws), m) == Room(ws, m)
  {
    if ws != [] {
      var n := |ws| - 1;
      TermsSums(ws[..n], a, m);
      if ws[n] == 0 {
        assert Terms(ws) == Terms(ws[..n]);
      } else {
        var ts := Terms(ws);
        assert ts[..|ts| - 1] == Terms(ws[..n]) && ts[|ts| - 1] == LinearTerm(n, ws[n]);
        assert TrueIn(a)(LinearTerm(n, ws[n])) == CuttingPlanes.Term(ws[n], a(n));
        assert NotFalse(m)(LinearTerm(n, ws[n])) == if Falsified(m, n, ws[n]) then 0 else Abs(ws[n]);
      }
    }
  }

  lemma {:induction false} TermsShape(ws: seq<int>)
    ensures forall t :: t in Terms(ws) ==> t.l.v < |ws| && ws[t.l.v] != 0 && t == LinearTerm(t.l.v, ws[t.l.v])
    ensures forall v :: 0 <= v < |ws| && ws[v] != 0 ==> LinearTerm(v, ws[v]) in Terms(ws)
    ensures VarsApart(Terms(ws))
  {
    if ws != [] {
      var n := |ws| - 1;
      TermsShape(ws[..n]);
      var ts := Terms(ws[..n]);
      assert forall v :: 0 <= v < n ==> ws[..n][v] == ws[v];
      assert forall i :: 0 <= i < |ts| ==> ts[i] in ts;
      if ws[n] != 0 {
        assert Terms(ws) == ts + [LinearTerm(n, ws[n])];
      }
    }
  }

  lemma TermsMean(ws: seq<int>, us: seq<Linear.Term>)
    requires multiset(us) == multiset(Terms(ws))
    ensures ConstrOk(Constr(us, 0), |ws|)
    ensures forall a: Assignment :: TrueSum(us, a) == Value(ws, a)
    ensures forall m: Model :: OpenSum(us, m) == Room(ws, m)
    ensures forall v :: 0 <= v < |ws| && ws[v] != 0 ==> LinearTerm(v, ws[v]) in multiset(us)
  {
    hide Terms, VarsApart, Sum, Value, Room;
    TermsOk(ws, us);
    forall a: Assignment ensures TrueSum(us, a) == Value(ws, a) {
      TermsSums(ws, a, []);
      SumPermuted(us, Terms(ws), TrueIn(a));
    }
    forall m: Model ensures OpenSum(us, m) == Room(ws, m) {
      TermsSums(ws, (v: nat) => true, m);
      SumPermuted(us, Terms(ws), NotFalse(m));
    }
  }

  lemma TermsOk(ws: seq<int>, us: seq<Linear.Term>)
    requires multiset(us) == multiset(Terms(ws))
    ensures ConstrOk(Constr(us, 0), |ws|)
    ensures forall v :: 0 <= v < |ws| && ws[v] != 0 ==> LinearTerm(v, ws[v]) in multiset(us)
  {
    hide Terms;
    TermsShape(ws);
    ApartPermuted(Terms(ws), us);
    forall t | t in us ensures t.w > 0 && t.l.v < |ws| {
      assert t in multiset(Terms(ws));
    }
  }

  datatype Outcome =
    | Refuted(atDecision: bool)    // the code answers "unsatisfiable"
    | Panics                       // it indexes the trail at -1
    | Loops                        // it does not terminate
    | Units(lits: seq<Lit>)        // literals that always hold
    | Learned(c: Constr, unit: Lit, lvl: nat)

  // Back at level b, c forces u.
  ghost predicate Asserts(model: Model, c: Constr, u: Lit, b: nat)
  {
    u.v < |model| && UpTo(model, b)[u.v] == 0
    && OpenSum(c.terms, UpTo(model, b)) - c.card <= 0 && exists t :: t in c.terms && t.l == u && t.w > 0
  }

  ghost predicate Justified(o: Outcome, model: Model, db: seq<Constr>, units: set<Lit>)
  {
    match o
    case Refuted(atDecision) => atDecision || Impossible(db, units)
    case Panics => Impossible(db, units)
    case Loops => Impossible(db, units)
    case Units(lits) => lits != [] && forall a: Assignment :: Allowed(db, units, a) ==> AllHold(Elems(lits), a)
    case Learned(c, u, b) =>
      (forall a: Assignment :: Allowed(db, units, a) ==> Met(c, a))
      && (Impossible(db, units) || Asserts(model, c, u, b))
  }

  // The answers given without a constraint, and the endings of the loop they stand for.
  ghost predicate Stopped(x: Context, e: Ending, o: Outcome)
  {
    match o
    case Refuted(atDecision) =>
      e.AtTop? && -1 <= e.s.ptr < |x.trail| && (atDecision <==> e.s.ptr >= 0 && LevelAt(x, e.s.ptr) >= 2)
    case Panics => e.OffTrail?
    case Loops => e.Never?
    case Units(_) => false
    case Learned(_, _, _) => false
  }

  lemma StoppedWell(x: Context, e: Ending, o: Outcome, db: seq<Constr>, units: set<Lit>)
    requires EndsWell(x, e, db, units) && Stopped(x, e, o)
    ensures Justified(o, x.model, db, units)
    ensures o.Refuted? <==> e.AtTop?
  {
    hide Impossible, LevelAt;
  }

  lemma FlipEnds(x: Context, s: State, lit: Lit, db: seq<Constr>, units: set<Lit>)
    requires EndsWell(x, Flip(s, lit), db, units)
    ensures Falsifying(x, s, db, units)
  {
  }

  lemma TopStops(x: Context, s: State, atDecision: bool)
    requires WellBound(x) && -1 <= s.ptr < |x.trail| && |s.ws| == |x.model|
    requires Scan(x, s.ws, s.ptr, s.lvl, None) == None && s.lvl == 1
    requires atDecision <==> s.ptr >= 0 && LevelAt(x, s.ptr) >= 2
    ensures Stopped(x, Run(x, s), Refuted(atDecision))
  {
    hide WellBound, Scan, LevelAt;
  }

  lemma OffStops(x: Context, s: State)
    requires WellBound(x) && -1 <= s.ptr < |x.trail| && |s.ws| == |x.model|
    requires |x.reason| == |x.model| && forall i :: 0 <= i < |x.trail| ==> x.trail[i].v < |x.model|
    requires Scan(x, s.ws, s.ptr, s.lvl, None) == None && s.lvl != 1 && Skip(x, s).ptr < 0
    ensures Stopped(x, Run(x, s), Panics)
  {
    hide WellBound, Scan, Skip;
  }

  lemma NeverStops(x: Context, s: State)
    requires WellBound(x) && -1 <= s.ptr < |x.trail| && |s.ws| == |x.model|
    requires |x.reason| == |x.model| && forall i :: 0 <= i < |x.trail| ==> x.trail[i].v < |x.model|
    requires Scan(x, s.ws, s.ptr, s.lvl, None) == None && s.lvl != 1
    requires var s1 := Skip(x, s); s1.ptr >= 0 && x.reason[x.trail[s1.ptr].v] == None && s1.lvl < 2
    ensures Stopped(x, Run(x, s), Loops)
  {
    hide WellBound, Scan, Skip, RoundAt;
  }

  // What the analysis uses of the solver.
  class Analysis {
    const trail: seq<Lit>
    const reason: seq<Option<Constr>>
    var model: Model

    constructor (trail: seq<Lit>, model: Model, reason: seq<Option<Constr>>)
      ensures this.trail == trail && this.model == model && this.reason == reason
    {
      this.trail, this.model, this.reason := trail, model, reason;
    }

    ghost function At(pb: PbSet, ptr: int, lvl: int): State
      reads pb, pb.weights
    {
      State(pb.weights[..], pb.card, ptr, lvl)
    }

    // The inner loop: unbinds trail literals the constraint does not falsify.
    method SkipBack(pb: PbSet, ptr: int, lvl: int, ghost x: Context) returns (ptr': int, lvl': int)
      requires WellBound(x) && x.trail == trail && x.reason == reason && -1 <= ptr < |trail|
      requires model == Restricted(x.model, trail, ptr + 1) && |model| == |x.model|
      modifies this`model
      ensures -1 <= ptr' <= ptr && |model| == |x.model|
      ensures |x.reason| == |x.model| && forall i :: 0 <= i < |x.trail| ==> x.trail[i].v < |x.model|
      ensures At(pb, ptr', lvl') == Skip(x, At(pb, ptr, lvl))
      ensures model == Restricted(x.model, trail, ptr' + 1)
    {
      hide WellBound, Restricted, Falsifies;
      Indices(x);
      ptr', lvl' := ptr, lvl;
      while ptr' >= 0 && !pb.FalsifiesLit(trail[ptr'])
        invariant -1 <= ptr' <= ptr && model == Restricted(x.model, trail, ptr' + 1) && |model| == |x.model|
        invariant Skip(x, At(pb, ptr', lvl')) == Skip(x, At(pb, ptr, lvl))
      {
        var lit := trail[ptr'];
        PopModel(x, ptr' + 1);
        if reason[lit.v] == None {
          lvl' := lvl' - 1;
        }
        model := model[lit.v := 0];
        ptr' := ptr' - 1;
      }
    }

    // Resolves with the reason of the literal at ptr, after rounding both constraints to weight 1 on it.
    method ResolveAt(pb: PbSet, ptr: nat, c: Constr, ghost x: Context, ghost lvl: int)
      requires WellBound(x) && x.trail == trail && x.reason == reason && ptr < |trail| && |x.model| == pb.weights.Length
      requires model == Restricted(x.model, trail, ptr + 1) && Falsifies(pb.weights[..], trail[ptr])
      requires |model| == |x.model| && trail[ptr].v < |reason| && reason[trail[ptr].v] == Some(c)
      modifies pb, pb.weights
      ensures ConstrOk(c, |x.model|) && Dense(c.terms, |x.model|)[trail[ptr].v] != 0
      ensures At(pb, ptr, lvl) == Resolve(x, old(At(pb, ptr, lvl)), c)
      ensures pb.weights[trail[ptr].v] == 0
    {
      hide WellBound, Rounded, RoundedCard, Added, Cancelled, Dense, ConstrOk, Restricted;
      Indices(x);
      ghost var s := At(pb, ptr, lvl);
      var v := trail[ptr].v;
      ReasonWeight(x, ptr);
      ResolveClears(x, s, c);
      pb.RoundToOne(model, v);
      var pb2 := new PbSet(c, |model|);
      pb2.RoundToOne(model, v);
      pb.Clash(pb2);
    }

    // Rounds the constraint to weight 1 on a literal that has no reason.
    method RoundHere(pb: PbSet, ptr: nat, ghost x: Context, ghost lvl: int)
      requires x.trail == trail && ptr < |trail| && |x.model| == |model| == pb.weights.Length
      requires model == Restricted(x.model, trail, ptr + 1) && Falsifies(pb.weights[..], trail[ptr])
      modifies pb, pb.weights
      ensures At(pb, ptr, lvl) == RoundAt(x, old(At(pb, ptr, lvl)))
      ensures Falsifies(pb.weights[..], trail[ptr])
    {
      hide Rounded, RoundedCard, Restricted;
      RoundedUnit(pb.weights[..], model, trail[ptr].v);
      pb.RoundToOne(model, trail[ptr].v);
    }

    // One turn of the loop for a literal that the constraint falsifies.
    method Turn(pb: PbSet, ptr: nat, lvl: int, ghost x: Context) returns (lvl': int)
      requires WellBound(x) && x.trail == trail && x.reason == reason && ptr < |trail| && |x.model| == pb.weights.Length
      requires model == Restricted(x.model, trail, ptr + 1) && |model| == |x.model|
      requires Falsifies(pb.weights[..], trail[ptr]) && trail[ptr].v < |reason|
      modifies pb, pb.weights
      ensures var s, r := old(At(pb, ptr, lvl)), reason[trail[ptr].v];
              if r == None then At(pb, ptr, lvl') == RoundAt(x, s).(lvl := lvl - 1) && Falsifies(pb.weights[..], trail[ptr])
              else && ConstrOk(r.value, |x.model|) && Dense(r.value.terms, |x.model|)[trail[ptr].v] != 0
                   && At(pb, ptr, lvl') == Resolve(x, s, r.value) && lvl' == lvl && !Falsifies(pb.weights[..], trail[ptr])
    {
      hide WellBound, RoundAt, Resolve, Restricted, Dense, ConstrOk;
      match reason[trail[ptr].v] {
        case None =>
          RoundHere(pb, ptr, x, lvl);
          lvl' := lvl - 1;
        case Some(c) =>
          ResolveAt(pb, ptr, c, x, lvl);
          lvl' := lvl;
      }
    }

    method CuttingPlanes(confl: Constr, level: nat, ghost db: seq<Constr>, ghost units: set<Lit>) returns (o: Outcome)
      requires WellBound(Context(trail, model, reason)) && FromDb(Context(trail, model, reason), db, units)
      requires trail != [] && level == LevelAt(Context(trail, model, reason), |trail| - 1) >= 2
      requires ConstrOk(confl, |model|) && confl in db && OpenSum(confl.terms, model) < confl.card
      modifies this`model
      ensures Justified(o, old(model), db, units)
      ensures !Impossible(db, units) ==>
                (o.Refuted? <==> MeetsDecision(Context(trail, old(model), reason),
                                   State(Dense(confl.terms, |old(model)|), confl.card, |trail| - 1, level)))
    {
      hide WellBound, FromDb, Falsifying, Synced, InSync, Impossible, Restricted, Scan, ConstrOk, Dense, LevelAt, MeetsDecision,
        EndsWell, Stopped, Justified;
      ghost var x := Context(trail, model, reason);
      var pb := new PbSet(confl, |model|);
      ghost var s0 := At(pb, |trail| - 1, level);
      Start(x, confl, level, db, units);
      RunSound(x, s0, db, units);
      if !Impossible(db, units) {
        RunExact(x, s0, db, units);
      }
      var stop, lit, ptr, lvl := Reduce(pb, level, x);
      if stop.Some? {
        StoppedWell(x, Run(x, s0), stop.value, db, units);
        return stop.value;
      }
      FlipEnds(x, At(pb, ptr, lvl), lit, db, units);
      o := Finish(pb, lit, x, ptr, lvl, db, units);
    }

    // The loop, down to a constraint with one falsified literal of its level, or to an answer without any.
    method Reduce(pb: PbSet, level: int, ghost x: Context) returns (stop: Option<Outcome>, lit: Lit, ptr: int, lvl: int)
      requires WellBound(x) && x == Context(trail, model, reason) && model == Restricted(model, trail, |trail|)
      requires pb.weights.Length == |model|
      modifies this`model, pb, pb.weights
      ensures -1 <= ptr < |trail| && pb.weights.Length == |x.model| == |model|
      ensures model == Restricted(x.model, trail, ptr + 1)
      ensures stop.Some? ==> Stopped(x, Run(x, old(At(pb, |trail| - 1, level))), stop.value)
      ensures stop == None ==> Scan(x, pb.weights[..], ptr, lvl, None) == Some(lit)
      ensures stop == None ==> Run(x, old(At(pb, |trail| - 1, level))) == Flip(At(pb, ptr, lvl), lit)
    {
      hide WellBound, Resolve, RoundAt, Restricted, Scan, Skip, ConstrOk, Falsifies, Dense, LevelAt, Level, Stopped;
      ghost var s0 := At(pb, |trail| - 1, level);
      ptr, lvl, lit := |trail| - 1, level, Lit(0, true);
      Indices(x);
      var only := pb.OnlyFalsified(trail, model, ptr, lvl);
      ScanSame(x, pb.weights[..], ptr, lvl);
      while only == None
        invariant -1 <= ptr < |trail| && pb.weights.Length == |x.model| == |model|
        invariant model == Restricted(x.model, trail, ptr + 1)
        invariant Run(x, At(pb, ptr, lvl)) == Run(x, s0)
        invariant only == Scan(x, pb.weights[..], ptr, lvl, None)
        decreases ptr + 1, ptr >= 0 && Falsifies(pb.weights[..], trail[ptr]), lvl
      {
        if lvl == 1 {  // top-level conflict
          LevelsKept(x, ptr);
          var atDecision := ptr >= 0 && Level(model, trail[ptr].v) >= 2;
          TopStops(x, At(pb, ptr, lvl), atDecision);
          return Some(Refuted(atDecision)), lit, ptr, lvl;
        }
        ghost var s := At(pb, ptr, lvl);
        ptr, lvl := SkipBack(pb, ptr, lvl, x);
        if ptr < 0 {
          OffStops(x, s);
          return Some(Panics), lit, ptr, lvl;
        }
        lvl := Turn(pb, ptr, lvl, x);
        if reason[trail[ptr].v] == None && lvl < 1 {
          NeverStops(x, s);
          return Some(Loops), lit, ptr, lvl;
        }
        only := pb.OnlyFalsified(trail, model, ptr, lvl);
        ScanSame(x, pb.weights[..], ptr, lvl);
      }
      return None, only.value, ptr, lvl;
    }

    // Turns the last resolvent into what is learned.
    method Finish(pb: PbSet, lit: Lit, ghost x: Context, ghost ptr: int, ghost lvl: int,
                  ghost db: seq<Constr>, ghost units: set<Lit>) returns (o: Outcome)
      requires WellBound(x) && FromDb(x, db, units) && -1 <= ptr < |x.trail| && model == Now(x, At(pb, ptr, lvl))
      requires Falsifying(x, At(pb, ptr, lvl), db, units) && Scan(x, pb.weights[..], ptr, lvl, None) == Some(lit)
      requires pb.weights.Length == |model| == |x.model|
      modifies pb, pb.weights
      ensures Justified(o, x.model, db, units) && (o.Refuted? ==> Impossible(db, units))
    {
      hide WellBound, FromDb, Falsifying, Scan, Now, Restricted, Rounded, RoundedCard, Learnable, Justified, BackLevel, Level,
        NothingForced, Sorted, Stops, Equivalent, VarsApart, Renders, NonNegative, WeightSum, Saturates, Saturated;
      ghost var s := At(pb, ptr, lvl);
      FlipBound(x, s, lit);
      var btLvl := pb.BacktrackLevel(model, lit.v);
      FlipSound(x, s, db, units, lit, btLvl);
      pb.RoundToOne(model, lit.v);
      LearnableCard(x.model, pb.weights[..], pb.card, db, units, lit.Neg(), btLvl);
      var c := pb.ToClause();
      RenderedSigns(c, pb.weights[..]);
      var r := SimplifyPB(c);
      if r.Simplified? {
        NoUnits(c, r);
      }
      LearnedSound(x.model, pb.weights[..], c, r, db, units, lit.Neg(), btLvl);
      match r {
        case Unsat => o := Refuted(false);
        case Simplified(lits, rest) =>
          if lits != [] {
            o := Units(lits);
          } else {
            o := Learned(rest.value, lit.Neg(), btLvl);
          }
      }
    }
  }

  lemma RenderedSigns(c: Constr, ws: seq<int>)
    requires Renders(c, ws)
    ensures NonNegative(c.terms)
  {
  }

  lemma NoUnits(c: Constr, r: Simplified)
    requires Sorted(c) && r.Simplified? && |r.units| <= |c.terms|
    requires r.rest.Some? <==> c.card > WeightSum(c.terms[..|r.units|])
    requires r.rest.Some? ==>
              var rest := c.terms[|r.units|..];
              rest != [] && r.rest.value.card == c.card - WeightSum(c.terms[..|r.units|])
              && multiset(r.rest.value.terms) == multiset(Saturated(rest, r.rest.value.card))
    ensures r.units == [] ==> r.rest.Some? && c.terms != [] && Saturates(c, r.rest.value)
  {
    if r.units == [] {
      assert c.terms[..0] == [] && c.terms[0..] == c.terms;
    }
  }

  lemma FlipBound(x: Context, s: State, lit: Lit)
    requires WellBound(x) && -1 <= s.ptr < |x.trail| && |s.ws| == |x.model|
    requires Scan(x, s.ws, s.ptr, s.lvl, None) == Some(lit)
    ensures lit.v < |s.ws| && s.ws[lit.v] != 0
  {
    var i := ScanHit(x, s, lit);
  }

  // Levels below the pointer do not depend on the bindings already undone.
  lemma LevelsKept(x: Context, top: int)
    requires WellBound(x) && -1 <= top < |x.trail|
    ensures forall i :: 0 <= i <= top ==> Level(Restricted(x.model, x.trail, top + 1), x.trail[i].v) == LevelAt(x, i)
  {
    forall i | 0 <= i <= top ensures Level(Restricted(x.model, x.trail, top + 1), x.trail[i].v) == LevelAt(x, i) {
      NowAt(x, State([], 0, top, 0), i);
    }
  }

  lemma {:induction false} ScanAgree(t: seq<Lit>, x: Context, y: Context, ws: seq<int>, ptr: int, lvl: int, found: Option<Lit>)
    requires x.trail == y.trail == t && ptr < |t|
    requires forall i :: 0 <= i <= ptr ==> LevelAt(x, i) == LevelAt(y, i)
    ensures Scan(x, ws, ptr, lvl, found) == Scan(y, ws, ptr, lvl, found)
    decreases ptr + 1
  {
    hide LevelAt;
    if ptr >= 0 {
      ScanAgree(t, x, y, ws, ptr - 1, lvl, found);
      ScanAgree(t, x, y, ws, ptr - 1, lvl, Some(t[ptr]));
    }
  }

  lemma ScanSame(x: Context, ws: seq<int>, ptr: int, lvl: int)
    requires WellBound(x) && -1 <= ptr < |x.trail|
    ensures Scan(Context(x.trail, Restricted(x.model, x.trail, ptr + 1), []), ws, ptr, lvl, None)
         == Scan(x, ws, ptr, lvl, None)
  {
    hide WellBound, Restricted;
    LevelsKept(x, ptr);
    ScanAgree(x.trail, Context(x.trail, Restricted(x.model, x.trail, ptr + 1), []), x, ws, ptr, lvl, None);
  }

  lemma PopModel(x: Context, k: nat)
    requires WellBound(x) && 0 < k <= |x.trail|
    ensures x.trail[k - 1].v < |x.model|
    ensures |Restricted(x.model, x.trail, k)| == |x.model|
    ensures Restricted(x.model, x.trail, k)[x.trail[k - 1].v := 0] == Restricted(x.model, x.trail, k - 1)
  {
    PopBindings(x, k);
  }

  // The rounded resolvent follows from the database, and unless that is impossible it forces the unit back
  // at level b.
  ghost predicate Learnable(model: Model, ws: seq<int>, card: int, db: seq<Constr>, units: set<Lit>, u: Lit, b: nat)
  {
    u.v < |ws| == |model| && Abs(ws[u.v]) == 1 && (ws[u.v] > 0) == u.pos && card >= 1
    && (forall a: Assignment :: Allowed(db, units, a) ==> Satisfies(a, ws, card))
    && (Impossible(db, units) || (UpTo(model, b)[u.v] == 0 && Slack(ws, card, UpTo(model, b)) <= 0))
  }

  lemma BackBelow(x: Context, s: State, v: nat, b: nat)
    requires WellBound(x) && 0 <= s.ptr < |x.trail| && LevelAt(x, s.ptr) == s.lvl >= 2
    requires v < |x.model| && Level(Now(x, s), v) == s.lvl
    requires b == 1 || exists u :: 0 <= u < |x.model| && Level(Now(x, s), u) == b != Level(Now(x, s), v)
    ensures b < s.lvl
  {
    if b != 1 && b != 0 {
      var u :| 0 <= u < |x.model| && Level(Now(x, s), u) == b != Level(Now(x, s), v);
      BoundBelow(x, s, u);
      var j :| 0 <= j <= s.ptr && x.trail[j].v == u;
      LevelsBefore(x, j, s.ptr);
    }
  }

  lemma FlipSound(x: Context, s: State, db: seq<Constr>, units: set<Lit>, lit: Lit, b: nat)
    requires WellBound(x) && FromDb(x, db, units) && Falsifying(x, s, db, units)
    requires Scan(x, s.ws, s.ptr, s.lvl, None) == Some(lit) && BackLevel(s.ws, Now(x, s), lit.v, b)
    requires b == 1 || exists u :: 0 <= u < |x.model| && Level(Now(x, s), u) == b != Level(Now(x, s), lit.v)
    ensures lit.v < |s.ws| && s.ws[lit.v] != 0
    ensures var m, v := Now(x, s), lit.v;
            Learnable(x.model, Rounded(s.ws, m, v), RoundedCard(s.ws, s.card, m, v), db, units, lit.Neg(), b)
  {
    hide WellBound, FromDb, Rounded, RoundedCard, Restricted, Scan, BackLevel, Level;
    var i := ScanHit(x, s, lit);
    RoundSlack(s.ws, s.card, Now(x, s), lit.v, 0);
    if s.lvl >= 2 {
      LevelNow(x, s, i);
      BackBelow(x, s, lit.v, b);
      FlipAsserts(x, s, db, units, lit, b);
    } else {
      TopRefutes(x, s, db, units);
    }
  }

  lemma LevelNow(x: Context, s: State, i: nat)
    requires WellBound(x) && i <= s.ptr < |x.trail|
    ensures x.trail[i].v < |x.model| && Level(Now(x, s), x.trail[i].v) == LevelAt(x, i)
  {
    NowAt(x, s, i);
  }

  lemma LearnableCard(model: Model, ws: seq<int>, card: int, db: seq<Constr>, units: set<Lit>, u: Lit, b: nat)
    requires Learnable(model, ws, card, db, units, u, b)
    ensures card >= 1
  {
  }

  // The clause made of the weights means what they mean.
  ghost predicate Renders(c: Constr, ws: seq<int>)
  {
    ConstrOk(c, |ws|)
    && (forall a: Assignment :: TrueSum(c.terms, a) == Value(ws, a))
    && (forall m: Model :: OpenSum(c.terms, m) == Room(ws, m))
    && forall v :: 0 <= v < |ws| && ws[v] != 0 ==> LinearTerm(v, ws[v]) in multiset(c.terms)
  }

  lemma RenderedMet(c: Constr, ws: seq<int>, db: seq<Constr>, units: set<Lit>)
    requires Renders(c, ws) && forall a: Assignment :: Allowed(db, units, a) ==> Satisfies(a, ws, c.card)
    ensures forall a: Assignment :: Allowed(db, units, a) ==> Met(c, a)
  {
  }

  lemma LearnedSound(model: Model, ws: seq<int>, c: Constr, r: Simplified, db: seq<Constr>, units: set<Lit>, u: Lit, b: nat)
    requires Learnable(model, ws, c.card, db, units, u, b) && Renders(c, ws)
    requires forall a: Assignment :: Equivalent(c, r, a)
    requires r.Simplified? && r.units == [] ==> r.rest.Some? && c.terms != [] && Saturates(c, r.rest.value)
    ensures Justified(match r
                      case Unsat => Refuted(false)
                      case Simplified(lits, rest) => if lits != [] then Units(lits) else Learned(rest.value, u, b), model, db, units)
    ensures r.Unsat? ==> Impossible(db, units)
  {
    hide Satisfies, Renders, Saturates, Saturated, TrueSum, Slack, UpTo, Asserts;
    RenderedMet(c, ws, db, units);
    assert forall a: Assignment :: Allowed(db, units, a) ==> Met(c, a) && Equivalent(c, r, a);
    if r.Simplified? && r.units == [] && !Impossible(db, units) {
      LearnedAsserts(model, ws, c, r.rest.value, u, b);
    }
  }

  // d is c with its first weight lowered to the degree, in some order.
  ghost predicate Saturates(c: Constr, d: Constr)
    requires c.terms != []
  {
    d.card == c.card && multiset(d.terms) == multiset(Saturated(c.terms, c.card))
  }

  lemma LearnedAsserts(model: Model, ws: seq<int>, c: Constr, d: Constr, u: Lit, b: nat)
    requires Renders(c, ws) && c.terms != [] && Saturates(c, d) && c.card >= 1
    requires u.v < |ws| == |model| && Abs(ws[u.v]) == 1 && (ws[u.v] > 0) == u.pos
    requires UpTo(model, b)[u.v] == 0 && Slack(ws, c.card, UpTo(model, b)) <= 0
    ensures Asserts(model, d, u, b)
  {
    hide UpTo;
    var m := UpTo(model, b);
    SaturatedOpen(c, m);
    SumPermuted(d.terms, Saturated(c.terms, c.card), NotFalse(m));
    var t := LinearTerm(u.v, ws[u.v]);
    assert t in multiset(d.terms) && t.l == u;
  }

  lemma SaturatedOpen(c: Constr, m: Model)
    requires c.terms != [] && c.card >= 1
    ensures OpenSum(Saturated(c.terms, c.card), m) <= OpenSum(c.terms, m)
  {
    var us := Saturated(c.terms, c.card);
    SumSplit(c.terms, 0, NotFalse(m));
    SumSplit(us, 0, NotFalse(m));
    assert us[1..] == c.terms[1..] && us[..0] == c.terms[..0];
  }
}
