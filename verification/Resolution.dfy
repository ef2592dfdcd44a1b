// The loop of cuttingPlanes (solver/learn_pb.go) as a function of the trail, with its soundness.
module Resolution {
  import opened Logic
  import opened Bindings
  import opened Linear
  import opened CuttingPlanes

  // What the analysis reads of the solver: the trail, the bindings at the conflict and the constraint that
  // forced each variable.
  datatype Context = Context(trail: seq<Lit>, model: Model, reason: seq<Option<Constr>>)

  // The constraint under analysis, the position on the trail, and the level the code believes it is at.
  datatype State = State(ws: seq<int>, card: int, ptr: int, lvl: int)

  // How the loop ends: with a literal to flip, with the verdict "unsatisfiable" on reaching level 1, by
  // indexing the trail below 0, or never.
  datatype Ending = Flip(s: State, lit: Lit) | AtTop(s: State) | OffTrail(s: State) | Never(s: State)

  // ----- a constraint as an array of weights -----

  predicate ConstrOk(c: Constr, n: nat)
  {
    (forall t :: t in c.terms ==> t.w > 0 && t.l.v < n)
    && forall i, j :: 0 <= i < j < |c.terms| ==> c.terms[i].l.v != c.terms[j].l.v
  }

  function Signed(t: Term): int { if t.l.pos then t.w else -t.w }

  function Dense(ts: seq<Term>, n: nat): (ws: seq<int>)
    requires forall t :: t in ts ==> t.l.v < n
    ensures |ws| == n
  {
    if ts == [] then seq(n, _ => 0)
    else
      var k := |ts| - 1;
      assert forall t :: t in ts[..k] ==> t in ts;
      assert ts[k] in ts;
      Dense(ts[..k], n)[ts[k].l.v := Signed(ts[k])]
  }

  lemma {:induction false} DenseAt(ts: seq<Term>, n: nat, v: nat)
    requires (forall t :: t in ts ==> t.l.v < n) && v < n
    ensures (forall t :: t in ts ==> t.l.v != v) ==> Dense(ts, n)[v] == 0
    ensures VarsApart(ts) ==> forall t :: t in ts && t.l.v == v ==> Dense(ts, n)[v] == Signed(t)
  {
    if ts != [] {
      var k := |ts| - 1;
      assert ts == ts[..k] + [ts[k]];
      assert ts[k] in ts && forall t :: t in ts[..k] ==> t in ts;
      DenseAt(ts[..k], n, v);
    }
  }

  lemma {:induction false} ZeroSums(n: nat, a: Assignment, m: Model)
    ensures Value(seq(n, _ => 0), a) == 0 && Room(seq(n, _ => 0), m) == 0
  {
    if n > 0 {
      var z: seq<int> := seq(n, _ => 0);
      assert z[..n - 1] == seq(n - 1, _ => 0);
      ZeroSums(n - 1, a, m);
    }
  }

  lemma {:induction false} SetWeight(ws: seq<int>, v: nat, w: int, a: Assignment, m: Model)
    requires v < |ws| && ws[v] == 0
    ensures Value(ws[v := w], a) == Value(ws, a) + CuttingPlanes.Term(w, a(v))
    ensures Room(ws[v := w], m) == Room(ws, m) + if Falsified(m, v, w) then 0 else Abs(w)
  {
    var n := |ws| - 1;
    if v < n {
      assert ws[v := w][..n] == ws[..n][v := w];
      SetWeight(ws[..n], v, w, a, m);
    } else {
      assert ws[v := w][..n] == ws[..n];
    }
  }

  lemma {:induction false} DenseSums(ts: seq<Term>, n: nat, a: Assignment, m: Model)
    requires ConstrOk(Constr(ts, 0), n)
    ensures Value(Dense(ts, n), a) == TrueSum(ts, a) && Room(Dense(ts, n), m) == OpenSum(ts, m)
    decreases |ts|, 1
  {
    if ts == [] {
      ZeroSums(n, a, m);
    } else {
      DenseSumsStep(ts, n, a, m);
    }
  }

  lemma DenseSumsStep(ts: seq<Term>, n: nat, a: Assignment, m: Model)
    requires ConstrOk(Constr(ts, 0), n) && ts != []
    ensures Value(Dense(ts, n), a) == TrueSum(ts, a) && Room(Dense(ts, n), m) == OpenSum(ts, m)
    decreases |ts|, 0
  {
    hide Value, Room, Sum;
    var k := |ts| - 1;
    var rest, t := ts[..k], ts[k];
    assert t in ts && forall u :: u in rest ==> u in ts;
    assert forall i :: 0 <= i < k ==> rest[i] == ts[i];
    DenseSums(rest, n, a, m);
    DenseAt(rest, n, t.l.v);
    SetWeight(Dense(rest, n), t.l.v, Signed(t), a, m);
    Taken(ts, k, TrueIn(a));
    Taken(ts, k, NotFalse(m));
    assert ts[..k + 1] == ts;
    TermWeight(t, a, m);
  }

  // A term against its signed weight.
  lemma TermWeight(t: Term, a: Assignment, m: Model)
    requires t.w > 0
    ensures CuttingPlanes.Term(Signed(t), a(t.l.v)) == TrueIn(a)(t)
    ensures (if Falsified(m, t.l.v, Signed(t)) then 0 else Abs(Signed(t))) == NotFalse(m)(t)
  {
  }

  // ----- bindings along the trail -----

  ghost function Restricted(m: Model, t: seq<Lit>, k: nat): Model
    requires k <= |t|
  {
    seq(|m|, v requires 0 <= v < |m| => if v in Vars(t[..k]) then m[v] else 0)
  }

  ghost predicate Propagated(x: Context, i: nat, c: Constr)
    requires i < |x.trail|
  {
    ConstrOk(c, |x.model|)
    && exists k :: 0 <= k < |c.terms| && c.terms[k].l == x.trail[i]
                   && OpenSum(c.terms, Restricted(x.model, x.trail, i)) - c.card < c.terms[k].w
  }

  // Level of the ith trail literal.
  function LevelAt(x: Context, i: nat): nat
    requires i < |x.trail|
  {
    Level(x.model, x.trail[i].v)
  }

  // The solver's state at a conflict: levels grow by one at each decision, which is the only literal of a
  // level above 1 without a reason, and every reason forced its literal from what was bound before it.
  ghost predicate WellBound(x: Context)
  {
    |x.reason| == |x.model| && TrailOk(x.model, x.trail) && DistinctVars(x.trail)
    && (x.trail != [] ==> LevelAt(x, 0) <= 2)
    && (forall i :: 0 < i < |x.trail| ==> LevelAt(x, i) <= LevelAt(x, i - 1) + 1)
    && (forall i :: 0 <= i < |x.trail| ==>
          x.trail[i].v < |x.model| && match x.reason[x.trail[i].v]
                                      case Some(c) => Propagated(x, i, c) && (LevelAt(x, i) >= 2 ==> !Decides(x, i))
                                      case None => LevelAt(x, i) >= 2 ==> Decides(x, i))
  }

  ghost predicate Decides(x: Context, i: nat)
    requires i < |x.trail|
  {
    i == 0 || LevelAt(x, i - 1) < LevelAt(x, i)
  }

  // The assignments allowed by the database and by the unit literals bound at level 1.
  ghost predicate Allowed(db: seq<Constr>, units: set<Lit>, a: Assignment) { AllMet(db, a) && AllHold(units, a) }

  ghost predicate Impossible(db: seq<Constr>, units: set<Lit>) { forall a: Assignment :: !Allowed(db, units, a) }

  ghost predicate FromDb(x: Context, db: seq<Constr>, units: set<Lit>)
    requires |x.reason| == |x.model|
  {
    forall i :: 0 <= i < |x.trail| && x.trail[i].v < |x.model| ==>
      match x.reason[x.trail[i].v]
      case Some(c) => c in db
      case None => LevelAt(x, i) == 1 ==> x.trail[i] in units
  }

  // ----- the loop -----

  predicate Falsifies(ws: seq<int>, l: Lit) { l.v < |ws| && ws[l.v] != 0 && (ws[l.v] < 0) == l.pos }

  // onlyFalsified: the one literal of level lvl at or below ptr that ws falsifies, if there is just one.
  function Scan(x: Context, ws: seq<int>, ptr: int, lvl: int, found: Option<Lit>): Option<Lit>
    requires ptr < |x.trail|
    decreases ptr + 1
  {
    if ptr < 0 || LevelAt(x, ptr) != lvl then found
    else if !Falsifies(ws, x.trail[ptr]) then Scan(x, ws, ptr - 1, lvl, found)
    else if found.Some? then None
    else Scan(x, ws, ptr - 1, lvl, Some(x.trail[ptr]))
  }

  // The inner loop: unbinds literals the constraint does not falsify.
  function Skip(x: Context, s: State): (r: State)
    requires s.ptr < |x.trail| && |x.reason| == |x.model|
    requires forall i :: 0 <= i < |x.trail| ==> x.trail[i].v < |x.model|
    ensures r.ws == s.ws && r.card == s.card && r.ptr <= s.ptr
    ensures r.ptr >= 0 ==> Falsifies(r.ws, x.trail[r.ptr])
    ensures r.ptr == s.ptr ==> r == s
    decreases s.ptr + 1
  {
    if s.ptr < 0 || Falsifies(s.ws, x.trail[s.ptr]) then s
    else Skip(x, s.(ptr := s.ptr - 1, lvl := if x.reason[x.trail[s.ptr].v] == None then s.lvl - 1 else s.lvl))
  }

  ghost function Now(x: Context, s: State): Model
    requires -1 <= s.ptr < |x.trail|
  {
    Restricted(x.model, x.trail, s.ptr + 1)
  }

  ghost function RoundAt(x: Context, s: State): (r: State)
    requires 0 <= s.ptr < |x.trail| && Falsifies(s.ws, x.trail[s.ptr])
    ensures |r.ws| == |s.ws| && r.ptr == s.ptr && r.lvl == s.lvl
  {
    var m, v := Now(x, s), x.trail[s.ptr].v;
    State(Rounded(s.ws, m, v), RoundedCard(s.ws, s.card, m, v), s.ptr, s.lvl)
  }

  // One resolution with the constraint c that forced the literal at ptr.
  ghost function Resolve(x: Context, s: State, c: Constr): (r: State)
    requires 0 <= s.ptr < |x.trail| && Falsifies(s.ws, x.trail[s.ptr]) && |s.ws| == |x.model|
    requires ConstrOk(c, |x.model|) && Dense(c.terms, |x.model|)[x.trail[s.ptr].v] != 0
  {
    var m, v := Now(x, s), x.trail[s.ptr].v;
    var s1, ws2 := RoundAt(x, s), Dense(c.terms, |x.model|);
    var r2 := Rounded(ws2, m, v);
    State(Added(s1.ws, r2), s1.card + RoundedCard(ws2, c.card, m, v) - Cancelled(s1.ws, r2), s.ptr, s.lvl)
  }

  // The reason of a propagated literal gives it a positive weight.
  lemma ReasonWeight(x: Context, i: nat)
    requires WellBound(x) && i < |x.trail| && x.reason[x.trail[i].v].Some?
    ensures var c, v, n := x.reason[x.trail[i].v].value, x.trail[i].v, |x.model|;
            && ConstrOk(c, n)
            && var w := Dense(c.terms, n)[v];
               && w != 0 && (w > 0) == x.trail[i].pos
               && Room(Dense(c.terms, n), Restricted(x.model, x.trail, i)) - c.card < Abs(w)
  {
    var c, v, n := x.reason[x.trail[i].v].value, x.trail[i].v, |x.model|;
    assert Propagated(x, i, c);
    var m := Restricted(x.model, x.trail, i);
    var k :| 0 <= k < |c.terms| && c.terms[k].l == x.trail[i] && OpenSum(c.terms, m) - c.card < c.terms[k].w;
    DenseAt(c.terms, n, v);
    assert c.terms[k] in c.terms && Dense(c.terms, n)[v] == Signed(c.terms[k]);
    DenseSums(c.terms, n, (u: nat) => true, m);
  }

  // cuttingPlanes up to the choice of the literal to flip.
  ghost function Run(x: Context, s: State): Ending
    requires WellBound(x) && -1 <= s.ptr < |x.trail| && |s.ws| == |x.model|
    decreases s.ptr + 1, s.ptr >= 0 && Falsifies(s.ws, x.trail[s.ptr]), s.lvl
  {
    var only := Scan(x, s.ws, s.ptr, s.lvl, None);
    if only.Some? then Flip(s, only.value)
    else if s.lvl == 1 then AtTop(s)
    else
      var s1 := Skip(x, s);
      if s1.ptr < 0 then OffTrail(s1)
      else
        match x.reason[x.trail[s1.ptr].v]
        case Some(c) =>
          ReasonWeight(x, s1.ptr);
          ResolveClears(x, s1, c);
          Run(x, Resolve(x, s1, c))
        case None =>
          RoundedUnit(s1.ws, Now(x, s1), x.trail[s1.ptr].v);
          var s2 := RoundAt(x, s1).(lvl := s1.lvl - 1);
          if s2.lvl < 1 then Never(s2) else Run(x, s2)
  }

  // The resolvent no longer mentions the variable resolved on.
  lemma ResolveClears(x: Context, s: State, c: Constr)
    requires 0 <= s.ptr < |x.trail| && Falsifies(s.ws, x.trail[s.ptr]) && |s.ws| == |x.model|
    requires ConstrOk(c, |x.model|)
    requires var w := Dense(c.terms, |x.model|)[x.trail[s.ptr].v]; w != 0 && (w > 0) == x.trail[s.ptr].pos
    ensures var r := Resolve(x, s, c); |r.ws| == |s.ws| && r.ws[x.trail[s.ptr].v] == 0 && r.ptr == s.ptr && r.lvl == s.lvl
  {
    var m, v := Now(x, s), x.trail[s.ptr].v;
    RoundedUnit(s.ws, m, v);
    RoundedUnit(Dense(c.terms, |x.model|), m, v);
  }

  // ----- soundness -----

  // Once the loop has lowered the level at a decision, it can only go on lowering it.
  ghost predicate Stuck(x: Context, s: State)
    requires 0 <= s.ptr < |x.trail|
  {
    var v := x.trail[s.ptr].v;
    Falsifies(s.ws, x.trail[s.ptr]) && Abs(s.ws[v]) == 1 && v < |x.reason| && x.reason[v] == None
  }

  ghost predicate InSync(x: Context, s: State)
    requires 0 <= s.ptr < |x.trail|
  {
    if LevelAt(x, s.ptr) <= 1 then s.lvl <= 1 else s.lvl == LevelAt(x, s.ptr)
  }

  ghost predicate Synced(x: Context, s: State)
    requires -1 <= s.ptr < |x.trail|
  {
    s.ptr >= 0 ==> InSync(x, s) || (LevelAt(x, s.ptr) >= 2 && 1 <= s.lvl < LevelAt(x, s.ptr) && Stuck(x, s))
  }

  // The conflict invariant: the constraint follows from the database and the current bindings falsify it.
  ghost predicate Falsifying(x: Context, s: State, db: seq<Constr>, units: set<Lit>)
  {
    -1 <= s.ptr < |x.trail| && |s.ws| == |x.model| && Slack(s.ws, s.card, Now(x, s)) < 0
    && forall a: Assignment :: Allowed(db, units, a) ==> Satisfies(a, s.ws, s.card)
  }

  lemma VarsPop(t: seq<Lit>, k: nat)
    requires 0 < k <= |t| && forall i, j :: 0 <= i < j < |t| ==> t[i].v != t[j].v
    ensures Vars(t[..k]) == Vars(t[..k - 1]) + {t[k - 1].v} && t[k - 1].v !in Vars(t[..k - 1])
  {
    assert t[..k] == t[..k - 1] + [t[k - 1]];
    forall l | l in t[..k - 1] ensures l.v != t[k - 1].v {
      var i :| 0 <= i < k - 1 && t[..k - 1][i] == l;
      assert t[i] == l;
    }
  }

  lemma PopBindings(x: Context, k: nat)
    requires WellBound(x) && 0 < k <= |x.trail|
    ensures var m, m', l := Restricted(x.model, x.trail, k), Restricted(x.model, x.trail, k - 1), x.trail[k - 1];
            && l.v < |m| == |m'| && m'[l.v] == 0 && m[l.v] != 0 && (m[l.v] > 0) == l.pos
            && forall v :: 0 <= v < |m| && v != l.v ==> m[v] == m'[v]
  {
    var t := x.trail;
    assert True(x.model, t[k - 1]);
    VarsPop(t, k);
  }

  // Unbinding a literal the constraint does not falsify leaves its slack alone.
  lemma PopRoom(x: Context, k: nat, ws: seq<int>)
    requires WellBound(x) && 0 < k <= |x.trail| && !Falsifies(ws, x.trail[k - 1])
    ensures Room(ws, Restricted(x.model, x.trail, k - 1)) == Room(ws, Restricted(x.model, x.trail, k))
  {
    PopBindings(x, k);
    RoomSame(ws, Restricted(x.model, x.trail, k), Restricted(x.model, x.trail, k - 1));
  }

  lemma SkipOne(x: Context, s: State, db: seq<Constr>, units: set<Lit>)
    requires WellBound(x) && Falsifying(x, s, db, units) && Synced(x, s)
    requires s.ptr >= 0 && !Falsifies(s.ws, x.trail[s.ptr])
    ensures |x.reason| == |x.model| && x.trail[s.ptr].v < |x.model|
    ensures var s' := s.(ptr := s.ptr - 1, lvl := if x.reason[x.trail[s.ptr].v] == None then s.lvl - 1 else s.lvl);
            Falsifying(x, s', db, units) && (s'.ptr >= 0 ==> InSync(x, s'))
  {
    PopRoom(x, s.ptr + 1, s.ws);
  }

  lemma {:induction false} SkipKeeps(x: Context, s: State, db: seq<Constr>, units: set<Lit>)
    requires WellBound(x) && Falsifying(x, s, db, units) && Synced(x, s)
    requires |x.reason| == |x.model| && forall i :: 0 <= i < |x.trail| ==> x.trail[i].v < |x.model|
    ensures var r := Skip(x, s);
            -1 <= r.ptr && Falsifying(x, r, db, units) && Synced(x, r) && (0 <= r.ptr < s.ptr ==> InSync(x, r))
    decreases s.ptr + 1
  {
    hide WellBound, Falsifying, InSync, LevelAt, Stuck;
    assert -1 <= s.ptr < |x.trail| by {
      SkipBounds(x, s, db, units);
    }
    if s.ptr >= 0 && !Falsifies(s.ws, x.trail[s.ptr]) {
      var s' := s.(ptr := s.ptr - 1, lvl := if x.reason[x.trail[s.ptr].v] == None then s.lvl - 1 else s.lvl);
      SkipOne(x, s, db, units);
      SkipKeeps(x, s', db, units);
    }
  }

  lemma SkipBounds(x: Context, s: State, db: seq<Constr>, units: set<Lit>)
    requires Falsifying(x, s, db, units)
    ensures -1 <= s.ptr < |x.trail| && |s.ws| == |x.model|
  {
  }

  // A reason met by an assignment that follows the bindings before its literal makes the literal hold.
  lemma ReasonHolds(x: Context, i: nat, a: Assignment)
    requires WellBound(x) && i < |x.trail| && x.reason[x.trail[i].v].Some?
    requires Met(x.reason[x.trail[i].v].value, a) && Follows(a, Restricted(x.model, x.trail, i))
    ensures Holds(x.trail[i], a)
  {
    ReasonWeight(x, i);
    PopBindings(x, i + 1);
    var l, c := x.trail[i], x.reason[x.trail[i].v].value;
    var m, ws := Restricted(x.model, x.trail, i), Dense(c.terms, |x.model|);
    DenseSums(c.terms, |x.model|, a, m);
    ValueRoom(ws, a, m, l.v);
  }

  // Whatever is bound at level 1 holds in every allowed assignment.
  lemma {:induction false} TopHolds(x: Context, k: nat, db: seq<Constr>, units: set<Lit>, a: Assignment)
    requires WellBound(x) && FromDb(x, db, units) && k <= |x.trail| && Allowed(db, units, a)
    requires forall i :: 0 <= i < k ==> LevelAt(x, i) <= 1
    ensures Follows(a, Restricted(x.model, x.trail, k))
  {
    if k > 0 {
      TopHolds(x, k - 1, db, units, a);
      PopBindings(x, k);
      if x.reason[x.trail[k - 1].v].Some? {
        ReasonHolds(x, k - 1, a);
      }
      FollowsMore(x, k, a);
    } else {
      assert x.trail[..k] == [];
      assert Vars(x.trail[..k]) == {};
    }
  }

  lemma FollowsMore(x: Context, k: nat, a: Assignment)
    requires WellBound(x) && 0 < k <= |x.trail| && Holds(x.trail[k - 1], a)
    requires Follows(a, Restricted(x.model, x.trail, k - 1))
    ensures Follows(a, Restricted(x.model, x.trail, k))
  {
    PopBindings(x, k);
    hide WellBound;
    var m, m', l := Restricted(x.model, x.trail, k), Restricted(x.model, x.trail, k - 1), x.trail[k - 1];
    hide Restricted;
    forall v | 0 <= v < |m| && m[v] != 0 ensures a(v) == (m[v] > 0) {
      assert v != l.v ==> m'[v] == m[v];
    }
  }

  lemma LevelsBefore(x: Context, i: nat, j: nat)
    requires WellBound(x) && i <= j < |x.trail|
    ensures LevelAt(x, i) <= LevelAt(x, j)
  {
  }

  // A constraint falsified at level 1 refutes the database.
  lemma TopRefutes(x: Context, s: State, db: seq<Constr>, units: set<Lit>)
    requires WellBound(x) && FromDb(x, db, units) && Falsifying(x, s, db, units)
    requires s.ptr >= 0 ==> LevelAt(x, s.ptr) <= 1
    ensures Impossible(db, units)
  {
    forall i | 0 <= i < s.ptr + 1 ensures LevelAt(x, i) <= 1 {
      LevelsBefore(x, i, s.ptr);
    }
    forall a: Assignment | Allowed(db, units, a) ensures false {
      assert Satisfies(a, s.ws, s.card);
      TopHolds(x, s.ptr + 1, db, units, a);
      if s.ws != [] {
        ValueRoom(s.ws, a, Now(x, s), 0);
      }
    }
  }

  lemma ResolveKeeps(x: Context, s: State, c: Constr, db: seq<Constr>, units: set<Lit>)
    requires WellBound(x) && FromDb(x, db, units) && Falsifying(x, s, db, units)
    requires 0 <= s.ptr && Falsifies(s.ws, x.trail[s.ptr]) && x.reason[x.trail[s.ptr].v] == Some(c)
    ensures ConstrOk(c, |x.model|) && Dense(c.terms, |x.model|)[x.trail[s.ptr].v] != 0
    ensures Falsifying(x, Resolve(x, s, c), db, units)
  {
    hide WellBound, Propagated, Rounded, RoundedCard, Added, Cancelled, Restricted, Dense;
    Indices(x);
    ReasonWeight(x, s.ptr);
    ResolveClears(x, s, c);
    var m, v, ws2 := Now(x, s), x.trail[s.ptr].v, Dense(c.terms, |x.model|);
    PopRoom(x, s.ptr + 1, ws2);
    PopBindings(x, s.ptr + 1);
    SignOfProduct(s.ws[v], ws2[v]);
    ResolveSound(s.ws, s.card, ws2, c.card, m, v);
    forall a: Assignment | Allowed(db, units, a) ensures Satisfies(a, s.ws, s.card) && Satisfies(a, ws2, c.card) {
      assert Met(c, a);
      DenseSums(c.terms, |x.model|, a, m);
    }
  }

  lemma RoundKeeps(x: Context, s: State, db: seq<Constr>, units: set<Lit>)
    requires WellBound(x) && Falsifying(x, s, db, units)
    requires 0 <= s.ptr && Falsifies(s.ws, x.trail[s.ptr])
    ensures Falsifying(x, RoundAt(x, s), db, units)
    ensures Falsifies(RoundAt(x, s).ws, x.trail[s.ptr]) && Abs(RoundAt(x, s).ws[x.trail[s.ptr].v]) == 1
  {
    RoundSlack(s.ws, s.card, Now(x, s), x.trail[s.ptr].v, 0);
  }

  ghost predicate EndsWell(x: Context, e: Ending, db: seq<Constr>, units: set<Lit>)
  {
    match e
    case Flip(s, lit) => Falsifying(x, s, db, units) && Scan(x, s.ws, s.ptr, s.lvl, None) == Some(lit)
    case AtTop(s) => -1 <= s.ptr < |x.trail|
                     && (Impossible(db, units) || (s.ptr >= 0 && LevelAt(x, s.ptr) >= 2 && Stuck(x, s)))
    case OffTrail(_) => Impossible(db, units)
    case Never(_) => Impossible(db, units)
  }

  lemma AtTopSound(x: Context, s: State, db: seq<Constr>, units: set<Lit>)
    requires WellBound(x) && FromDb(x, db, units) && Falsifying(x, s, db, units) && Synced(x, s) && s.lvl == 1
    ensures EndsWell(x, AtTop(s), db, units)
  {
    if s.ptr < 0 || LevelAt(x, s.ptr) <= 1 {
      TopRefutes(x, s, db, units);
    }
  }

  // After the inner loop the level is 1 or less only if the trail is used up or down to level 1.
  lemma SkipLevel(x: Context, s: State, s1: State)
    requires -1 <= s.ptr < |x.trail| && -1 <= s1.ptr < |x.trail| && Synced(x, s) && Synced(x, s1)
    requires s.lvl != 1 && (s1.ptr == s.ptr ==> s1 == s) && (0 <= s1.ptr < s.ptr ==> InSync(x, s1)) && s1.ptr <= s.ptr
    ensures s1.lvl <= 1 && s1.ptr >= 0 ==> LevelAt(x, s1.ptr) <= 1
  {
  }

  lemma ResolveTurn(x: Context, s: State, c: Constr, db: seq<Constr>, units: set<Lit>)
    requires WellBound(x) && FromDb(x, db, units) && Falsifying(x, s, db, units) && Synced(x, s)
    requires 0 <= s.ptr && Falsifies(s.ws, x.trail[s.ptr]) && x.reason[x.trail[s.ptr].v] == Some(c)
    ensures ConstrOk(c, |x.model|) && Dense(c.terms, |x.model|)[x.trail[s.ptr].v] != 0
    ensures var r := Resolve(x, s, c);
            && Falsifying(x, r, db, units) && Synced(x, r) && r.ptr == s.ptr && !Falsifies(r.ws, x.trail[s.ptr])
  {
    ReasonWeight(x, s.ptr);
    ResolveClears(x, s, c);
    ResolveKeeps(x, s, c, db, units);
    hide Resolve, Falsifying, WellBound, FromDb;
    assert InSync(x, s);
  }

  lemma RoundTurn(x: Context, s: State, db: seq<Constr>, units: set<Lit>)
    requires WellBound(x) && Falsifying(x, s, db, units) && Synced(x, s) && s.lvl >= 2
    requires 0 <= s.ptr && Falsifies(s.ws, x.trail[s.ptr]) && x.reason[x.trail[s.ptr].v] == None
    ensures var r := RoundAt(x, s).(lvl := s.lvl - 1);
            Falsifying(x, r, db, units) && Synced(x, r) && Falsifies(r.ws, x.trail[s.ptr])
  {
    RoundKeeps(x, s, db, units);
    hide RoundAt, WellBound;
    assert LevelAt(x, s.ptr) >= 2;
  }

  // Every run keeps the conflict invariant. Running off the trail or forever, and the verdict at level 1,
  // happen only on impossible databases, with one exception: a verdict reached by lowering the level at a
  // decision that the constraint falsifies.
  lemma {:induction false} RunSound(x: Context, s: State, db: seq<Constr>, units: set<Lit>)
    requires WellBound(x) && FromDb(x, db, units) && Falsifying(x, s, db, units) && Synced(x, s)
    ensures EndsWell(x, Run(x, s), db, units)
    decreases s.ptr + 1, s.ptr >= 0 && Falsifies(s.ws, x.trail[s.ptr]), s.lvl
  {
    hide WellBound, FromDb, Falsifying, Synced, InSync, Stuck, Resolve, RoundAt, Propagated, Impossible;
    SkipBounds(x, s, db, units);
    Indices(x);
    if Scan(x, s.ws, s.ptr, s.lvl, None) == None {
      if s.lvl == 1 {
        AtTopSound(x, s, db, units);
      } else {
        var s1 := Skip(x, s);
        SkipKeeps(x, s, db, units);
        SkipLevel(x, s, s1);
        if s1.ptr < 0 || (s1.lvl <= 1 && x.reason[x.trail[s1.ptr].v] == None) {
          TopRefutes(x, s1, db, units);
        } else {
          match x.reason[x.trail[s1.ptr].v]
          case Some(c) =>
            ResolveTurn(x, s1, c, db, units);
            RunSound(x, Resolve(x, s1, c), db, units);
          case None =>
            RoundTurn(x, s1, db, units);
            RunSound(x, RoundAt(x, s1).(lvl := s1.lvl - 1), db, units);
        }
      }
    }
  }

  // Some turn of the loop meets a falsified literal that has no reason: the branch that lowers the level.
  ghost predicate MeetsDecision(x: Context, s: State)
    requires WellBound(x) && -1 <= s.ptr < |x.trail| && |s.ws| == |x.model|
    decreases s.ptr + 1, s.ptr >= 0 && Falsifies(s.ws, x.trail[s.ptr]), s.lvl
  {
    Scan(x, s.ws, s.ptr, s.lvl, None) == None && s.lvl != 1
    && var s1 := Skip(x, s);
       s1.ptr >= 0
       && match x.reason[x.trail[s1.ptr].v]
          case None => true
          case Some(c) =>
            ReasonWeight(x, s1.ptr);
            ResolveClears(x, s1, c);
            MeetsDecision(x, Resolve(x, s1, c))
  }

  // Below the level of the decision it stands at, the loop finds nothing, stays where it is and goes on lowering the
  // level, down to the verdict.
  lemma {:induction false} StuckEnds(x: Context, s: State)
    requires WellBound(x) && 0 <= s.ptr < |x.trail| && |s.ws| == |x.model| && 1 <= s.lvl < LevelAt(x, s.ptr)
    requires Falsifies(s.ws, x.trail[s.ptr]) && x.reason[x.trail[s.ptr].v] == None
    ensures Run(x, s).AtTop?
    decreases s.lvl
  {
    hide WellBound, Rounded, RoundedCard, Restricted;
    if s.lvl > 1 {
      RoundedUnit(s.ws, Now(x, s), x.trail[s.ptr].v);
      StuckEnds(x, RoundAt(x, s).(lvl := s.lvl - 1));
    }
  }

  // At a decision that the constraint falsifies the run is lost.
  lemma DecisionEnds(x: Context, s: State)
    requires WellBound(x) && -1 <= s.ptr < |x.trail| && |s.ws| == |x.model|
    requires Scan(x, s.ws, s.ptr, s.lvl, None) == None && s.lvl != 1
    requires |x.reason| == |x.model| && forall i :: 0 <= i < |x.trail| ==> x.trail[i].v < |x.model|
    requires var s1 := Skip(x, s);
             s1.ptr >= 0 && x.reason[x.trail[s1.ptr].v] == None && 2 <= s1.lvl <= LevelAt(x, s1.ptr)
    ensures Run(x, s).AtTop? && MeetsDecision(x, s)
  {
    hide WellBound, Rounded, RoundedCard, Restricted;
    var s1 := Skip(x, s);
    RoundedUnit(s1.ws, Now(x, s1), x.trail[s1.ptr].v);
    StuckEnds(x, RoundAt(x, s1).(lvl := s1.lvl - 1));
  }

  // A fact met at level 1 lowers the level to 0, and the loop never ends.
  lemma FactLoops(x: Context, s: State)
    requires WellBound(x) && -1 <= s.ptr < |x.trail| && |s.ws| == |x.model|
    requires Scan(x, s.ws, s.ptr, s.lvl, None) == None && s.lvl != 1
    requires |x.reason| == |x.model| && forall i :: 0 <= i < |x.trail| ==> x.trail[i].v < |x.model|
    requires var s1 := Skip(x, s); s1.ptr >= 0 && x.reason[x.trail[s1.ptr].v] == None && s1.lvl <= 1
    ensures Run(x, s).Never?
  {
    hide WellBound, Rounded, RoundedCard, Restricted;
    var s1 := Skip(x, s);
    RoundedUnit(s1.ws, Now(x, s1), x.trail[s1.ptr].v);
  }

  // A constraint that falsifies nothing more is skipped past the start of the trail.
  lemma NothingLeft(x: Context, s: State)
    requires WellBound(x) && -1 <= s.ptr < |x.trail| && |s.ws| == |x.model|
    requires Scan(x, s.ws, s.ptr, s.lvl, None) == None && s.lvl != 1
    requires |x.reason| == |x.model| && forall i :: 0 <= i < |x.trail| ==> x.trail[i].v < |x.model|
    requires Skip(x, s).ptr < 0
    ensures Run(x, s).OffTrail?
  {
  }

  // On a database that can be met, the loop finds a literal to flip exactly when no turn meets a decision, and
  // answers "unsatisfiable", wrongly, exactly when one does.
  lemma {:induction false} RunExact(x: Context, s: State, db: seq<Constr>, units: set<Lit>)
    requires WellBound(x) && FromDb(x, db, units) && Falsifying(x, s, db, units) && !Impossible(db, units)
    requires s.ptr >= 0 ==> InSync(x, s)
    ensures Run(x, s).Flip? <==> !MeetsDecision(x, s)
    ensures Run(x, s).AtTop? <==> MeetsDecision(x, s)
    decreases s.ptr + 1, s.ptr >= 0 && Falsifies(s.ws, x.trail[s.ptr]), s.lvl
  {
    hide WellBound, FromDb, Falsifying, InSync, Stuck, Resolve, RoundAt, Propagated, Impossible, LevelAt;
    SkipBounds(x, s, db, units);
    Indices(x);
    if Scan(x, s.ws, s.ptr, s.lvl, None) == None {
      if s.lvl == 1 {
        TopInSync(x, s, db, units);
      } else {
        var s1 := Skip(x, s);
        SkipKeeps(x, s, db, units);
        if s1.ptr < 0 {
          TopRefutes(x, s1, db, units);
        } else {
          match x.reason[x.trail[s1.ptr].v]
          case Some(c) =>
            ResolveTurn(x, s1, c, db, units);
            ResolveInSync(x, s1, c);
            RunExact(x, Resolve(x, s1, c), db, units);
          case None =>
            AboveTop(x, s1, db, units);
            DecisionEnds(x, s);
        }
      }
    }
  }

  // In step with the trail, the verdict at level 1 is right.
  lemma TopInSync(x: Context, s: State, db: seq<Constr>, units: set<Lit>)
    requires WellBound(x) && FromDb(x, db, units) && Falsifying(x, s, db, units) && s.lvl == 1
    requires s.ptr >= 0 ==> InSync(x, s)
    ensures Impossible(db, units)
  {
    TopRefutes(x, s, db, units);
  }

  lemma AboveTop(x: Context, s: State, db: seq<Constr>, units: set<Lit>)
    requires WellBound(x) && FromDb(x, db, units) && Falsifying(x, s, db, units) && s.ptr >= 0 && InSync(x, s)
    requires !Impossible(db, units)
    ensures 2 <= s.lvl == LevelAt(x, s.ptr)
  {
    if LevelAt(x, s.ptr) <= 1 {
      TopRefutes(x, s, db, units);
    }
  }

  lemma ResolveInSync(x: Context, s: State, c: Constr)
    requires 0 <= s.ptr < |x.trail| && Falsifies(s.ws, x.trail[s.ptr]) && |s.ws| == |x.model| && InSync(x, s)
    requires ConstrOk(c, |x.model|) && Dense(c.terms, |x.model|)[x.trail[s.ptr].v] != 0
    ensures var r := Resolve(x, s, c); r.ptr == s.ptr && InSync(x, r)
  {
  }

  // The conflict the analysis starts from.
  lemma Start(x: Context, confl: Constr, lvl: nat, db: seq<Constr>, units: set<Lit>)
    requires WellBound(x) && x.trail != [] && lvl == LevelAt(x, |x.trail| - 1) >= 2
    requires ConstrOk(confl, |x.model|) && confl in db && OpenSum(confl.terms, x.model) < confl.card
    ensures Restricted(x.model, x.trail, |x.trail|) == x.model
    ensures var s := State(Dense(confl.terms, |x.model|), confl.card, |x.trail| - 1, lvl);
            Falsifying(x, s, db, units) && InSync(x, s) && Synced(x, s)
  {
    var n := |x.model|;
    assert x.trail[..|x.trail|] == x.trail;
    forall v | 0 <= v < n && x.model[v] != 0 ensures v in Vars(x.trail) {
      assert True(x.model, Lit(v, x.model[v] > 0));
    }
    DenseSums(confl.terms, n, (v: nat) => true, x.model);
    forall a: Assignment | Allowed(db, units, a) ensures Satisfies(a, Dense(confl.terms, n), confl.card) {
      assert Met(confl, a);
      DenseSums(confl.terms, n, a, x.model);
    }
  }

  // ----- building a context -----

  ghost function TopLevel(x: Context): nat { if x.trail == [] then 1 else LevelAt(x, |x.trail| - 1) }

  ghost function Extended(x: Context, l: Lit, lvl: nat, r: Option<Constr>): Context
    requires l.v < |x.model| && l.v < |x.reason|
  {
    Context(x.trail + [l], x.model[l.v := SignedLevel(l, lvl)], x.reason[l.v := r])
  }

  lemma RestrictedPush(m: Model, t: seq<Lit>, l: Lit, w: int, j: nat)
    requires TrailOk(m, t) && l.v < |m| && m[l.v] == 0 && j <= |t|
    ensures Restricted(m[l.v := w], t + [l], j) == Restricted(m, t, j)
    ensures j == |t| ==> Restricted(m, t, j) == m
  {
    assert (t + [l])[..j] == t[..j];
    forall v | v in Vars(t[..j]) ensures v != l.v {
      var k :| k in t[..j] && k.v == v;
      assert True(m, k);
    }
    if j == |t| {
      assert t[..j] == t;
      forall v | 0 <= v < |m| && m[v] != 0 ensures v in Vars(t) {
        assert True(m, Lit(v, m[v] > 0));
      }
    }
  }

  // One more literal: a fact at level 1, a decision one level up, or a literal forced at the current level.
  ghost predicate Extendable(x: Context, l: Lit, lvl: nat, r: Option<Constr>)
  {
    l.v < |x.model| && x.model[l.v] == 0 && lvl >= 1 && LevelsUpTo(x.model, x.trail, lvl)
    && match r
       case None => lvl == 1 || lvl == TopLevel(x) + 1
       case Some(c) => (lvl >= 2 ==> lvl == TopLevel(x)) && ConstrOk(c, |x.model|)
                       && exists k :: 0 <= k < |c.terms| && c.terms[k].l == l && OpenSum(c.terms, x.model) - c.card < c.terms[k].w
  }

  ghost predicate ReasonAt(x: Context, i: nat)
    requires |x.reason| == |x.model| && i < |x.trail|
  {
    x.trail[i].v < |x.model|
    && match x.reason[x.trail[i].v]
       case Some(c) => Propagated(x, i, c) && (LevelAt(x, i) >= 2 ==> !Decides(x, i))
       case None => LevelAt(x, i) >= 2 ==> Decides(x, i)
  }

  ghost predicate StepsUp(x: Context)
  {
    DistinctVars(x.trail) && (x.trail != [] ==> LevelAt(x, 0) <= 2)
    && forall i :: 0 < i < |x.trail| ==> LevelAt(x, i) <= LevelAt(x, i - 1) + 1
  }

  lemma WellBoundIs(x: Context)
    requires |x.reason| == |x.model| && TrailOk(x.model, x.trail) && StepsUp(x)
    requires forall i :: 0 <= i < |x.trail| ==> ReasonAt(x, i)
    ensures WellBound(x)
  {
    hide TrailOk, LevelAt, Propagated, Decides, DistinctVars;
    forall i | 0 <= i < |x.trail|
      ensures x.trail[i].v < |x.model| && match x.reason[x.trail[i].v]
                                          case Some(c) => Propagated(x, i, c) && (LevelAt(x, i) >= 2 ==> !Decides(x, i))
                                          case None => LevelAt(x, i) >= 2 ==> Decides(x, i)
    {
      assert ReasonAt(x, i);
    }
  }

  lemma ExtendWell(x: Context, l: Lit, lvl: nat, r: Option<Constr>)
    requires WellBound(x) && Extendable(x, l, lvl, r)
    ensures l.v < |x.reason| && WellBound(Extended(x, l, lvl, r))
  {
    var y := Extended(x, l, lvl, r);
    PushTrail(x.model, x.trail, l, lvl);
    ExtendSteps(x, l, lvl, r);
    forall i | 0 <= i < |y.trail| ensures ReasonAt(y, i) {
      if i < |x.trail| {
        ExtendOld(x, l, lvl, r, i);
      } else {
        ExtendNew(x, l, lvl, r);
      }
    }
    hide *;
    WellBoundIs(y);
  }

  lemma ExtendSame(x: Context, l: Lit, lvl: nat, r: Option<Constr>, i: nat)
    requires WellBound(x) && Extendable(x, l, lvl, r) && l.v < |x.reason| && i < |x.trail|
    ensures var y := Extended(x, l, lvl, r);
            y.trail[i] == x.trail[i] && x.trail[i].v < |x.model| && x.trail[i].v != l.v && LevelAt(y, i) == LevelAt(x, i) <= TopLevel(x)
  {
    assert True(x.model, x.trail[i]);
    LevelsBefore(x, i, |x.trail| - 1);
  }

  lemma ExtendSteps(x: Context, l: Lit, lvl: nat, r: Option<Constr>)
    requires WellBound(x) && Extendable(x, l, lvl, r) && l.v < |x.reason|
    ensures StepsUp(Extended(x, l, lvl, r)) && LevelAt(Extended(x, l, lvl, r), |x.trail|) == lvl <= TopLevel(x) + 1
  {
    ExtendLevel(x, l, lvl, r);
    forall i | 0 <= i < |x.trail|
      ensures x.trail[i].v != l.v && LevelAt(Extended(x, l, lvl, r), i) == LevelAt(x, i)
    {
      ExtendSame(x, l, lvl, r, i);
    }
    StepUp(x, Extended(x, l, lvl, r), l);
  }

  lemma StepUp(x: Context, y: Context, l: Lit)
    requires StepsUp(x) && y.trail == x.trail + [l] && LevelAt(y, |x.trail|) <= TopLevel(x) + 1
    requires forall i :: 0 <= i < |x.trail| ==> x.trail[i].v != l.v && LevelAt(y, i) == LevelAt(x, i)
    ensures StepsUp(y)
  {
    hide LevelAt;
    assert forall i :: 0 <= i < |x.trail| ==> y.trail[i] == x.trail[i];
  }

  lemma ExtendLevel(x: Context, l: Lit, lvl: nat, r: Option<Constr>)
    requires WellBound(x) && Extendable(x, l, lvl, r) && l.v < |x.reason|
    ensures LevelAt(Extended(x, l, lvl, r), |x.trail|) == lvl <= TopLevel(x) + 1
  {
    var n := |x.trail|;
    assert n > 0 ==> True(x.model, x.trail[n - 1]);
  }

  // A literal's reason stays one when neither the trail up to it nor its bindings change.
  lemma ReasonSame(x: Context, y: Context, i: nat)
    requires |x.reason| == |x.model| == |y.model| == |y.reason| && i < |x.trail| && i < |y.trail| && ReasonAt(x, i)
    requires x.trail[i] == y.trail[i] && x.reason[x.trail[i].v] == y.reason[x.trail[i].v] && LevelAt(x, i) == LevelAt(y, i)
    requires i > 0 ==> LevelAt(x, i - 1) == LevelAt(y, i - 1)
    requires Restricted(x.model, x.trail, i) == Restricted(y.model, y.trail, i)
    ensures ReasonAt(y, i)
  {
    hide LevelAt, Restricted, ConstrOk, OpenSum;
  }

  lemma ExtendOld(x: Context, l: Lit, lvl: nat, r: Option<Constr>, i: nat)
    requires WellBound(x) && Extendable(x, l, lvl, r) && l.v < |x.reason| && i < |x.trail|
    ensures ReasonAt(Extended(x, l, lvl, r), i)
  {
    var y := Extended(x, l, lvl, r);
    ExtendSame(x, l, lvl, r, i);
    if i > 0 {
      ExtendSame(x, l, lvl, r, i - 1);
    }
    RestrictedPush(x.model, x.trail, l, SignedLevel(l, lvl), i);
    assert ReasonAt(x, i);
    hide WellBound, Extendable, LevelAt, Restricted, ReasonAt;
    ReasonSame(x, y, i);
  }

  lemma ExtendNew(x: Context, l: Lit, lvl: nat, r: Option<Constr>)
    requires WellBound(x) && Extendable(x, l, lvl, r) && l.v < |x.reason|
    ensures ReasonAt(Extended(x, l, lvl, r), |x.trail|)
  {
    ExtendSteps(x, l, lvl, r);
    if x.trail != [] {
      ExtendSame(x, l, lvl, r, |x.trail| - 1);
    }
    match r {
      case None =>
        hide WellBound, LevelAt, Restricted, OpenSum, SignedLevel, StepsUp;
      case Some(c) =>
        RestrictedPush(x.model, x.trail, l, SignedLevel(l, lvl), |x.trail|);
        ExtendForced(x, l, lvl, c);
        hide WellBound, LevelAt, Restricted, OpenSum, SignedLevel, StepsUp, Propagated;
    }
  }

  lemma ExtendForced(x: Context, l: Lit, lvl: nat, c: Constr)
    requires WellBound(x) && Extendable(x, l, lvl, Some(c)) && l.v < |x.reason|
    ensures Propagated(Extended(x, l, lvl, Some(c)), |x.trail|, c)
  {
    var y, n := Extended(x, l, lvl, Some(c)), |x.trail|;
    RestrictedPush(x.model, x.trail, l, SignedLevel(l, lvl), n);
    assert y.trail[n] == l && Restricted(y.model, y.trail, n) == x.model;
    hide WellBound, Restricted, OpenSum, SignedLevel;
  }

  lemma Indices(x: Context)
    requires WellBound(x)
    ensures |x.reason| == |x.model| && forall i :: 0 <= i < |x.trail| ==> x.trail[i].v < |x.model|
  {
  }

  // ----- the literal to flip -----

  // Trail positions of level lvl, up to ptr, whose literal ws falsifies.
  ghost predicate Hit(x: Context, ws: seq<int>, lvl: int, i: int)
  {
    0 <= i < |x.trail| && LevelAt(x, i) == lvl && Falsifies(ws, x.trail[i])
  }

  ghost predicate OnlyHit(x: Context, ws: seq<int>, ptr: int, lvl: int, i: int)
  {
    i <= ptr && Hit(x, ws, lvl, i) && forall j :: j <= ptr && Hit(x, ws, lvl, j) ==> j == i
  }

  ghost predicate NoHit(x: Context, ws: seq<int>, ptr: int, lvl: int) { forall i :: i <= ptr ==> !Hit(x, ws, lvl, i) }

  lemma NoneBelow(x: Context, ws: seq<int>, ptr: int, lvl: int)
    requires WellBound(x) && ptr < |x.trail| && (ptr >= 0 ==> LevelAt(x, ptr) < lvl)
    ensures NoHit(x, ws, ptr, lvl)
  {
    forall i | 0 <= i <= ptr ensures !Hit(x, ws, lvl, i) {
      LevelsBefore(x, i, ptr);
    }
  }

  // With one literal found, the scan fails exactly when there is another.
  lemma {:induction false} ScanSecond(x: Context, ws: seq<int>, ptr: int, lvl: int, l: Lit)
    requires WellBound(x) && ptr < |x.trail| && (ptr >= 0 ==> LevelAt(x, ptr) <= lvl)
    ensures Scan(x, ws, ptr, lvl, Some(l)) == if NoHit(x, ws, ptr, lvl) then Some(l) else None
    decreases ptr + 1
  {
    if ptr < 0 || LevelAt(x, ptr) != lvl {
      NoneBelow(x, ws, ptr, lvl);
    } else {
      hide WellBound, LevelAt, NoHit;
      ScanSecond(x, ws, ptr - 1, lvl, l);
      HitOrNot(x, ws, ptr, lvl);
    }
  }

  // l is the only literal of level lvl, up to ptr, that ws falsifies.
  ghost predicate Found(x: Context, ws: seq<int>, ptr: int, lvl: int, l: Lit)
  {
    exists i :: OnlyHit(x, ws, ptr, lvl, i) && x.trail[i] == l
  }

  lemma HitOrNot(x: Context, ws: seq<int>, ptr: int, lvl: int)
    requires 0 <= ptr < |x.trail| && LevelAt(x, ptr) == lvl
    ensures NoHit(x, ws, ptr, lvl) <==> NoHit(x, ws, ptr - 1, lvl) && !Falsifies(ws, x.trail[ptr])
  {
    hide LevelAt, Falsifies;
    assert Falsifies(ws, x.trail[ptr]) <==> Hit(x, ws, lvl, ptr);
  }

  lemma FoundOrNot(x: Context, ws: seq<int>, ptr: int, lvl: int, l: Lit)
    requires 0 <= ptr < |x.trail| && LevelAt(x, ptr) == lvl
    ensures !Falsifies(ws, x.trail[ptr]) ==> (Found(x, ws, ptr, lvl, l) <==> Found(x, ws, ptr - 1, lvl, l))
    ensures Falsifies(ws, x.trail[ptr]) ==> (Found(x, ws, ptr, lvl, l) <==> x.trail[ptr] == l && NoHit(x, ws, ptr - 1, lvl))
  {
    hide LevelAt, Falsifies;
    var hit := Hit(x, ws, lvl, ptr);
    assert Falsifies(ws, x.trail[ptr]) <==> hit;
    if hit {
      assert forall i :: OnlyHit(x, ws, ptr, lvl, i) ==> i == ptr;
      assert OnlyHit(x, ws, ptr, lvl, ptr) <==> NoHit(x, ws, ptr - 1, lvl);
    } else {
      assert forall i :: OnlyHit(x, ws, ptr, lvl, i) <==> OnlyHit(x, ws, ptr - 1, lvl, i);
    }
  }

  // onlyFalsified returns a literal exactly when one literal of the level is falsified.
  lemma {:induction false} ScanFinds(x: Context, ws: seq<int>, ptr: int, lvl: int, l: Lit)
    requires WellBound(x) && ptr < |x.trail| && (ptr >= 0 ==> LevelAt(x, ptr) <= lvl)
    ensures Scan(x, ws, ptr, lvl, None) == Some(l) <==> Found(x, ws, ptr, lvl, l)
    decreases ptr + 1
  {
    if ptr < 0 || LevelAt(x, ptr) != lvl {
      NoneBelow(x, ws, ptr, lvl);
    } else {
      hide WellBound, LevelAt, NoHit, Found;
      FoundOrNot(x, ws, ptr, lvl, l);
      if Falsifies(ws, x.trail[ptr]) {
        ScanSecond(x, ws, ptr - 1, lvl, x.trail[ptr]);
      } else {
        ScanFinds(x, ws, ptr - 1, lvl, l);
      }
    }
  }

  // The bindings left after backtracking to level b.
  ghost function UpTo(m: Model, b: nat): Model
  {
    seq(|m|, v requires 0 <= v < |m| => if Level(m, v) <= b then m[v] else 0)
  }

  // Every other variable of the constraint that is bound away from the level of v is bound at b or below.
  ghost predicate BackLevel(ws: seq<int>, m: Model, v: nat, b: nat)
  {
    b >= 1 && forall u :: 0 <= u < |ws| && u != v && ws[u] != 0 && Level(m, u) != Level(m, v) ==> Level(m, u) <= b
  }

  lemma BoundBelow(x: Context, s: State, u: nat)
    requires -1 <= s.ptr < |x.trail| && u < |x.model| && Now(x, s)[u] != 0
    ensures exists j :: 0 <= j <= s.ptr && x.trail[j].v == u
    ensures Now(x, s)[u] == x.model[u]
  {
    var p := x.trail[..s.ptr + 1];
    assert u in Vars(p);
    var l :| l in p && l.v == u;
    var j :| 0 <= j < |p| && p[j] == l;
    assert x.trail[j] == l;
  }

  // What the rounded constraint falsifies besides v is bound at the level to go back to, or below.
  lemma FalsifiedStays(x: Context, s: State, v: nat, i: nat, b: nat, u: nat)
    requires WellBound(x) && -1 <= s.ptr < |x.trail| && |s.ws| == |x.model| && OnlyHit(x, s.ws, s.ptr, s.lvl, i)
    requires x.trail[i].v == v && BackLevel(s.ws, Now(x, s), v, b) && u < |s.ws| && u != v
    requires Falsified(Now(x, s), u, s.ws[u])
    ensures Falsified(UpTo(x.model, b), u, s.ws[u])
  {
    BoundBelow(x, s, u);
    var j :| 0 <= j <= s.ptr && x.trail[j].v == u;
    assert True(x.model, x.trail[j]) && True(x.model, x.trail[i]);
    assert Falsifies(s.ws, x.trail[j]);
    NowAt(x, s, i);
    assert !Hit(x, s.ws, s.lvl, j);
  }

  lemma NowAt(x: Context, s: State, i: nat)
    requires i <= s.ptr < |x.trail| && x.trail[i].v < |x.model|
    ensures Now(x, s)[x.trail[i].v] == x.model[x.trail[i].v]
  {
    var l, p := x.trail[i], x.trail[..s.ptr + 1];
    assert p[i] == l;
    assert l in p && l.v in Vars(p);
  }

  // The learned constraint: it follows from the database, and back at level b its slack is below the weight
  // of the flipped literal, which is free again and so is forced the other way.
  lemma FlipAsserts(x: Context, s: State, db: seq<Constr>, units: set<Lit>, lit: Lit, b: nat)
    requires WellBound(x) && Falsifying(x, s, db, units) && Scan(x, s.ws, s.ptr, s.lvl, None) == Some(lit)
    requires BackLevel(s.ws, Now(x, s), lit.v, b) && b < s.lvl
    ensures lit.v < |s.ws| && s.ws[lit.v] != 0
    ensures var m, v := Now(x, s), lit.v;
            var ws, card := Rounded(s.ws, m, v), RoundedCard(s.ws, s.card, m, v);
            && |ws| == |s.ws| && Abs(ws[v]) == 1 && (ws[v] > 0) == lit.Neg().pos && Slack(ws, card, m) < 0
            && (forall a: Assignment :: Allowed(db, units, a) ==> Satisfies(a, ws, card))
            && Slack(ws, card, UpTo(x.model, b)) <= 0 && UpTo(x.model, b)[v] == 0
  {
    hide Rounded, RoundedCard, Dense, Propagated;
    var i := ScanHit(x, s, lit);
    var m, v := Now(x, s), lit.v;
    RoundSlack(s.ws, s.card, m, v, 0);
    var ws := Rounded(s.ws, m, v);
    forall u | 0 <= u < |ws| && u != v && Falsified(m, u, ws[u]) ensures Falsified(UpTo(x.model, b), u, ws[u]) {
      RoundedSign(s.ws, m, v, u);
      FalsifiedStays(x, s, v, i, b, u);
    }
    RoomFreed(ws, m, UpTo(x.model, b), v);
  }

  lemma ScanHit(x: Context, s: State, lit: Lit) returns (i: nat)
    requires WellBound(x) && -1 <= s.ptr < |x.trail| && Scan(x, s.ws, s.ptr, s.lvl, None) == Some(lit)
    ensures i <= s.ptr && OnlyHit(x, s.ws, s.ptr, s.lvl, i) && x.trail[i] == lit && Falsifies(s.ws, lit)
    ensures LevelAt(x, s.ptr) == s.lvl == LevelAt(x, i) && lit.v < |x.model| && Level(x.model, lit.v) == s.lvl
  {
    ScanFinds(x, s.ws, s.ptr, s.lvl, lit);
    i :| OnlyHit(x, s.ws, s.ptr, s.lvl, i) && x.trail[i] == lit;
  }
}
